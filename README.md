# untappd-recorder, modelled in Dafny

untappd-recorder mirrors a user's Untappd check-ins into an S3-compatible
bucket (Cloudflare R2 or AWS S3). Each check-in's photo is stored under a
date-partitioned key "YYYY/MM/DD/<id>.jpg", with a WEBP copy beside it and
the check-in's details as object metadata. A cursor object "latest.jpg"
remembers the newest check-in seen, so that the next run fetches only what
came after it.

The model covers the pieces that make those decisions:

- the feed client: the query, the per-response decision and the
  pagination loop;
- the venue accessors that blank private locations;
- the metadata serialisation;
- the storage client: keys, upload, existence, cursor read and write;
- the older R2 store: sanitised keys and latest-by-modification time;
- the photo pipeline: placeholder, 10 MiB cap, JPEG then WEBP;
- the three commands: the recorder, the older saver and the CSV backfill.

Modules, one per component:

| module | file | what it is |
|---|---|---|
| `Wrappers` | wrappers.dfy | `Option`, `Result`, `Error` |
| `Seqs` | seqs.dfy | two sequence facts the loop proofs share |
| `Decimal` | decimal.dfy | `strconv.Itoa`/`FormatUint`/`Atoi`/`ParseUint` and `strings.TrimSpace` |
| `Clock` | clock.dfy | Go time layouts RFC 1123 with numeric zone, "2006-01-02 15:04:05", RFC 3339, "2006/01/02" |
| `Paths` | paths.dfy | `path.Join` and `path.Clean` |
| `FloatText` | floattext.dfy | `%f` and `%.2f` of a float64 |
| `Untappd` | untappd.dfy | the feed's records and venue accessors (internal/untappd/types.go) |
| `Feed` | feed.dfy | the feed client (internal/untappd/client.go) |
| `ObjectStore` | objectstore.dfy | the bucket: a class holding a map from keys to objects and a request log |
| `Storage` | storage.dfy | `CheckinMetadata` and `ToMap` (internal/storage/storage.go) |
| `StorageClient` | storageclient.dfy | the storage client (internal/storage/client.go) |
| `Web` | web.dfy | the photo servers: one fixed reply per URL, and a log of fetched URLs |
| `Photo` | photo.dfy | the photo pipeline (internal/photo/photo.go) |
| `R2` | r2.dfy | the older R2 store (internal/storage/r2.go) |
| `Recorder` | recorder.dfy | cmd/record |
| `Saver` | saver.dfy | cmd/untappd-saver |
| `Backfill` | backfill.dfy | cmd/backfill |

How the state-changing code is modelled:

- **Bucket and photo origin.** `ObjectStore.Bucket` and `Web.Origin` are
  classes whose fields the requests update. The effect of each request is
  also a pure step function of the bucket's `State`: objects plus the log
  of calls.
- **Client methods.** Every method of a client or command changes the
  bucket exactly as a composition of those step functions (`ensures
  (bucket.Now(), err) == UploadStep(...)`). The properties are lemmas
  about the step functions.
- **Loops.** The pagination loop, the per-page save loop, the cursor-update
  callback, the CSV column loop, the per-row backfill loop and the
  latest-object selection are `while` loops. Each is proved against a
  recursive specification function.
- **Callback effects.** The feed never reads the bucket, and both
  orchestrators' callbacks always return nil. So their effects on the
  bucket are replayed over the delivered pages, in fetch order, after the
  feed has run.

## Model

| member | source | states |
|---|---|---|
| Untappd.MissingVenueIsBlank | internal/untappd/types.go:71-104 | a missing venue yields "" from Name, City, State, Country and LatLng |
| Untappd.AtHomeVenueKeepsOnlyItsName | internal/untappd/types.go:5-104 | for the "Untappd at Home" venue, Name is that name and City, State, Country and LatLng are "" |
| Untappd.OtherVenueIsShown | internal/untappd/types.go:71-104 | any other venue shows its name and location fields unchanged, and its LatLng is the "%f,%f" text and never "" |
| Untappd.LatLngBlankIffRedacted | internal/untappd/types.go:99-104 | LatLng is "" exactly when the venue is missing or is the at-home venue |
| Untappd.LatLngTextShape | internal/untappd/types.go:103 | the coordinate text has exactly one comma, with the formatted latitude before it and the longitude after it |
| Untappd.FirstPhotoURL | cmd/record/main.go:87-90 | the first media item's URL, even an empty one; "" when there is no media |
| Untappd.FallbackPhotoURL | internal/storage/r2.go:76-82 | the first media item's URL when there is any media, with no fallback for an empty URL; otherwise the beer image; "" exactly in those two blank cases |
| Untappd.FirstPhotoDiffersFromFallback | cmd/record/main.go:87-90 | the recorder's photo URL differs from the fallback choice exactly when there is no media and the beer has a picture, and then the recorder's is "" |
| Feed.FetchCheckins | internal/untappd/client.go:45-72 | the loop sends the queries, hands over the pages and returns the error of the recursive run `Fetch` over the replies |
| Feed.NonOKFails | internal/untappd/client.go:75-77 | a non-200 response stops with an error and is not handed to the processor |
| Feed.RateLimitStops | internal/untappd/client.go:79-82 | a 200 with `X-Ratelimit-Remaining` "0" stops cleanly without calling the processor, whatever the body |
| Feed.EmptyPageStops | internal/untappd/client.go:89-91 | a decoded page with no items stops cleanly without calling the processor |
| Feed.ProcessorErrorFails | internal/untappd/client.go:93-95 | a processor error stops the run with an error |
| Feed.ProcessedPageContinues | internal/untappd/client.go:97-106 | after a processed page: an empty since_url stops cleanly; a parseable one continues from its min_id; any other is an error |
| Feed.HandledShape | internal/untappd/client.go:74-107 | an error always stops; continuing happens only for a delivered page; a stop carries cursor 0 |
| Feed.ParseMinIDSpec | internal/untappd/client.go:15-29 | parseMinID succeeds exactly when the URL parses and its min_id is an Atoi-valid integer, and then returns that integer |
| Feed.BuildQuerySpec | internal/untappd/client.go:115-123 | the query always has the access token; it has min_id=n exactly when n ≠ 0, and limit=1 exactly when n = 0; no other keys |
| Feed.ParseMinIDOfBuildQuery | internal/untappd/client.go:15-29 | a cursor URL carrying the client's own min_id=n query reads back as n |
| Feed.FetchOrder | internal/untappd/client.go:47-70 | the first request uses the caller's cursor; one request per reply used; the pages that reach the processor are the delivered pages of those replies, in fetch order, each non-empty |
| Feed.FetchRequests | internal/untappd/client.go:49-70 | the run sends at least one request and at most one more than there are replies, the first with the caller's cursor |
| Feed.FetchPages | internal/untappd/client.go:61-93 | the pages handed over are exactly the delivered pages of the replies consumed |
| Feed.FetchContinues | internal/untappd/client.go:61-69 | a reply that says "continue" contributes its request and page, then the run goes on from the new cursor |
| Feed.DeliveredNonEmpty | internal/untappd/client.go:89-93 | the processor never receives an empty page |
| Feed.FetchCleanEnd | internal/untappd/client.go:61-71 | the run returns nil only after a reply that said to stop without an error |
| Feed.FirstDeliveredPageFails | internal/untappd/client.go:61-95 | a processor failing on the first delivered page ends the run with an error after that single request and page |
| Storage.ToMap | internal/storage/storage.go:64-81 | the key set is exactly the fourteen names |
| Storage.ToMapFields | internal/storage/storage.go:65-80 | each of the fourteen keys maps to its own field |
| Storage.BlankHasEveryKey | internal/storage/storage.go:64-81 | empty fields are still stored as "" entries; no key is omitted |
| Storage.FromMapOfToMap | internal/storage/storage.go:47-80 | reading the fourteen entries back gives the metadata that was serialised |
| Storage.ToMapInjective | internal/storage/storage.go:47-80 | metadata with equal maps are equal |
| StorageClient.ChooseProvider | internal/storage/client.go:30-39 | R2 when an R2 account is set; else S3 when a region is set; else an error |
| StorageClient.Client.Upload | internal/storage/client.go:96-120 | Upload changes the bucket and returns the error exactly as `UploadStep` with ".jpg" and "image/jpeg" |
| StorageClient.Client.UploadWEBP | internal/photo/photo.go:101 | the WEBP upload writes the same dated key with ".webp" and "image/webp" |
| StorageClient.Client.UploadAs | internal/storage/client.go:96-120 | parse the date, put under the dated key with exactly `ToMap(md)`, and map the two failures to errors |
| StorageClient.Client.Download | internal/storage/client.go:122-132 | a get of the key; the bytes on success, an error otherwise |
| StorageClient.Client.GetLatestCheckinID | internal/storage/client.go:158-192 | one head of "latest.jpg", answered through `LatestFromHead` |
| StorageClient.Client.UpdateLatestCheckinID | internal/storage/client.go:194-222 | one copy onto "latest.jpg" from "bucket/<dated key>" with the metadata replaced, or the date error with no request |
| StorageClient.Client.CheckinExists | internal/storage/client.go:224-250 | one head of the dated key, answered through `ExistsAnswer`, or the date error with no request |
| StorageClient.CheckinKeyShape | internal/storage/client.go:200-201 | a check-in's key is "YYYY/MM/DD" + "/" + "<id>.jpg", and never "latest.jpg" |
| StorageClient.PartsKeyIsDatedKey | cmd/backfill/main.go:203-207 | joining year, month, day and name gives the same key as joining the "2006/01/02" directory and the name |
| StorageClient.DatedKeyOfPlain | internal/storage/client.go:102-106 | for a name with no slash or dot segment, `path.Join` puts it after the date directory and a single slash |
| StorageClient.DistinctIdsDistinctKeys | internal/storage/client.go:103-106 | on one day, distinct slash-free ids give distinct keys |
| StorageClient.UploadKeyExample | internal/storage/client_test.go:50-66 | a date on 1 November 2025 with id "123" gives the key "2025/11/01/123.jpg" |
| StorageClient.UploadKeyOf | internal/storage/client.go:97-106 | when the date parses, the key is the date directory, a slash, then id + extension |
| StorageClient.UploadEffect | internal/storage/client.go:96-120 | a bad date is an error with the bucket unchanged. Otherwise exactly one put under the dated key; it succeeds exactly when that request does not fail; the object then holds the file and exactly `ToMap(md)`; no other key appears or disappears |
| StorageClient.LatestFromHeadSpec | internal/storage/client.go:162-191 | NotFound reads as 0; any other head failure is an error; otherwise success exactly when "id" is present and its trimmed text is a uint64 decimal, which is then the value; blank is an error |
| StorageClient.AsUint64 | internal/storage/client.go:212 | a negative int is read as its 64-bit two's complement; others are unchanged |
| StorageClient.LatestOfLatestMetadata | internal/storage/client.go:175-214 | the cursor metadata written by the update reads back as the id |
| StorageClient.UpdateThenGetLatest | internal/storage/client.go:175-212 | after a successful update for check-in c, a cursor read whose own request does not fail returns c's id |
| StorageClient.UpdateEffect | internal/storage/client.go:194-222 | a bad date is an error before any request. No key but "latest.jpg" changes, the source included. On success "latest.jpg" holds the source's bytes with exactly {id, created_at} and "image/jpeg" |
| StorageClient.UpdateIdempotent | internal/storage/client.go:194-222 | updating twice for the same check-in leaves the same objects as updating once, when the first update's own request does not fail |
| StorageClient.ExistsSpec | internal/storage/client.go:224-250 | when the head's request does not fail: true exactly when the dated object is there, false exactly when it is absent; an error, never false, when the head fails and on a bad date |
| StorageClient.UploadThenExists | internal/storage/client.go:224-250 | after a successful upload, an existence check for the same id on the same day whose request does not fail is true |
| ObjectStore.Bucket.constructor | internal/storage/client.go:25-28 | a bucket with the given name, failing request positions, clock and objects, and an empty request log |
| ObjectStore.Bucket.PutObject | internal/storage/client.go:108-114 | logs the put; a request at a failing position fails; otherwise it writes the object with the bucket's time |
| ObjectStore.Bucket.HeadObject | internal/storage/client.go:162-173 | logs the head; Failed for a request at a failing position; NotFound for an absent key; otherwise the object's metadata |
| ObjectStore.Bucket.GetObject | internal/storage/client.go:123-131 | logs the get; the object's bytes, or NotFound or Failed as for a head |
| ObjectStore.Bucket.CopyObject | internal/storage/client.go:206-216 | logs the copy; fails on a source outside the bucket or at a failing position; NotFound when the source is absent; otherwise writes the destination from the source with its metadata kept or replaced |
| ObjectStore.Bucket.ListObjects | internal/storage/r2.go:131-136 | logs the list; fails at a failing position; otherwise lists every object exactly once with its time, and changes no object |
| ObjectStore.SourceKey | internal/storage/client.go:204 | a copy source names a key exactly when it starts with the bucket name and a slash; the key is the rest |
| ObjectStore.SourceKeyOfPath | internal/storage/client.go:204 | "bucket/key" names key |
| ObjectStore.HeadAfterPut | internal/storage/client.go:108-114 | right after a successful put, a head gives its metadata and a get its bytes, unless that request fails itself |
| ObjectStore.PutKeepsOtherKeys | internal/storage/client.go:108-114 | a put changes no other key |
| ObjectStore.CopyKeepsOtherKeys | internal/storage/client.go:206-216 | a copy changes no key but its destination |
| ObjectStore.ReadsKeepObjects | internal/storage/client.go:122-173 | heads and gets leave the objects unchanged |
| Web.Origin.constructor | internal/photo/photo.go:35-37 | an origin with the given replies that has fetched nothing |
| Web.Origin.Fetch | internal/photo/photo.go:125 | logs the URL and gives its fixed reply |
| Web.Body | cmd/untappd-saver/main.go:103-116 | the body of an uncapped read: bytes exactly for a 200 whose body reads in full |
| Photo.Capped | internal/photo/photo.go:131-147 | bytes exactly for a 200 whose body reads in full and is at most 10·2²⁰ bytes, and then the body unchanged |
| Photo.CapBoundary | internal/photo/photo.go:116-143 | a body of exactly 10 MiB is kept; one byte more is refused |
| Photo.DownloadPhoto | internal/photo/photo.go:118-148 | one fetch of the URL, answered as `Capped` |
| Photo.ToWebp | internal/photo/photo.go:90-106 | transcode, then upload the WEBP; a transcode failure is an error with nothing written |
| Photo.DownloadAndSave | internal/photo/photo.go:43-69 | fetches nothing for an empty URL and the URL otherwise; the bucket changes as `SaveStep` |
| Photo.DownloadAndSaveWEBP | internal/photo/photo.go:71-88 | the bucket changes as `SaveWebpStep`: date, get of the JPEG key, convert, upload |
| Photo.SaveStepCases | internal/photo/photo.go:55-62 | an empty URL uses the placeholder and fetches nothing; a failed acquire is an error with no request to the bucket; otherwise the bytes are saved |
| Photo.JpgAndWebpKeys | internal/photo/photo.go:64-101 | the JPEG and WEBP keys sit in the same date directory and differ |
| Photo.SaveBytesEffect | internal/photo/photo.go:64-104 | the JPEG put comes first. Each put fails by its own position in the request log. A failed JPEG put ends the save, with no conversion and no WEBP. A failed conversion is an error that keeps the JPEG. Otherwise the WEBP of exactly the uploaded bytes is put second. Success means exactly one put of each |
| Photo.JpgFailureSkipsTranscoder | internal/photo/photo.go:64-66 | after a failed JPEG upload the outcome does not depend on the converter |
| Photo.WebpAfterUpload | internal/photo/photo.go:77-87 | converting later reads back the bytes the JPEG upload wrote, when that read does not fail, and so writes the same WEBP |
| Photo.WebpNeedsDate | internal/photo/photo.go:77-82 | a bad date is an error with no download; otherwise the first request is a get of the key `Upload` writes |
| R2.ReplaceRuns | internal/storage/r2.go:53-56 | the result holds only `[A-Za-z0-9_]` |
| R2.ReplaceRunsOfLeadingRun | internal/storage/r2.go:53-54 | a leading maximal run of other characters becomes one "_" |
| R2.ReplaceRunsOfRun | internal/storage/r2.go:53-54 | a maximal run of other characters after word characters becomes one "_" |
| R2.ReplaceRunsOfWordPrefix | internal/storage/r2.go:53-54 | word characters are kept as they are |
| R2.TrimLeftUnderscores | internal/storage/r2.go:55 | a suffix of the input that does not start with "_" |
| R2.TrimRightUnderscores | internal/storage/r2.go:55 | a prefix of the input that does not end with "_" |
| R2.Sanitize | internal/storage/r2.go:53-57 | a sanitised part holds only `[A-Za-z0-9_]` and neither starts nor ends with "_" |
| R2.SanitizeIdempotent | internal/storage/r2.go:53-57 | sanitising a sanitised part changes nothing |
| R2.SanitizedKeyShape | internal/storage/r2.go:58-65 | the key is the id, then "_" and the beer part if non-empty, then "_" and the date part if non-empty, then ".jpg" |
| R2.PhotoMetadata | internal/storage/r2.go:110-121 | exactly the ten keys id, beer, brewery, comment, rating, venue, date, latlng, style, abv |
| R2.SelectLatest | internal/storage/r2.go:142-147 | the loop selects the first entry with the greatest LastModified, since only a strictly later time replaces it |
| R2.LatestExists | internal/storage/r2.go:142-147 | a non-empty listing has such an entry |
| R2.LatestUnique | internal/storage/r2.go:142-147 | it is unique |
| R2.R2Client.constructor | internal/storage/r2.go:68-73 | a store over the given bucket and origin |
| R2.R2Client.SaveCheckin | internal/storage/r2.go:75-128 | fetches the fallback photo URL if there is one; the bucket changes as `SaveStep` |
| R2.R2Client.GetLatestCheckinID | internal/storage/r2.go:130-164 | a failed list request is an error after that request alone; otherwise some listing of the objects is answered as `LatestStep` |
| R2.SaveGates | internal/storage/r2.go:84-103 | no photo URL gives nil and no request; a failed download is an error with nothing written |
| R2.SavePuts | internal/storage/r2.go:105-122 | a downloaded photo is put exactly once, under the sanitised key, with its bytes |
| R2.EmptyListingIsZero | internal/storage/r2.go:138-140 | an empty listing gives 0 with no head |
| R2.LatestHeadsNewest | internal/storage/r2.go:142-160 | otherwise the head goes to the first object with the greatest LastModified, and the cursor is read from its metadata |
| R2.CursorOfSpec | internal/storage/r2.go:157-160 | the cursor is the "id" entry exactly when it is an Atoi-valid integer; otherwise an error |
| R2.CursorOfPhotoMetadata | internal/storage/r2.go:111-157 | a photo this store wrote gives back its check-in's id |
| Recorder.FormatLatLng | internal/util/util.go:5-10 | "" exactly when a coordinate is zero, otherwise the "%f,%f" text |
| Recorder.RecordLatLng | cmd/record/main.go:100-105 | the stored coordinates are "" exactly when the venue name is empty or a coordinate is zero |
| Recorder.RecordMetadataFields | cmd/record/main.go:93-99 | the stored id reads back as the check-in id; the date is `CreatedAt` verbatim; all fourteen fields are stored |
| Recorder.RecordedPhotoIsCursorSource | cmd/record/main.go:92-110 | a saved check-in's JPEG key is the key the cursor update copies from |
| Recorder.SaveCheckin | cmd/record/main.go:86-111 | the first media URL, fetched when non-empty, and the metadata through the photo pipeline |
| Recorder.AsInt64 | cmd/record/main.go:40-46 | the uint64 cursor read as a Go int keeps its bits (an assumed conversion; see below) |
| Recorder.AsInt64OfAsUint64 | cmd/record/main.go:46 | reading as signed inverts writing as unsigned |
| Recorder.RunRecorder | cmd/record/main.go:38-62 | a failed cursor read returns an error with no request; otherwise the feed starts from the stored cursor and the cursor updates are replayed over the delivered pages |
| Recorder.ReplayDone | cmd/record/main.go:45-53 | once the update has run, later pages change nothing |
| Recorder.ReplayOfDelivered | cmd/record/main.go:52-57 | over non-empty pages the cursor moves once, to `checkins[0]` of the first page |
| Recorder.RunMovesCursorToNewest | cmd/record/main.go:46-61 | a run moves the cursor once, to the first check-in of the first delivered page, and not at all when no page came |
| Recorder.SilentNeverAborts | cmd/record/main.go:60 | the callback returns nil, so a delivered page ends the feed with an error only through a bad since_url |
| Recorder.NextRunStartsAfter | cmd/record/main.go:40-46 | after a successful update for c, a next run whose cursor read does not fail asks first for what came after c |
| Saver.SaveCheckin | cmd/untappd-saver/main.go:83-132 | fetches the fallback URL if there is one; the bucket changes as `SaveStep` |
| Saver.SaveGates | cmd/untappd-saver/main.go:84-131 | no URL gives nil with no request; a failed download is an error with no upload; otherwise the downloaded bytes are uploaded |
| Saver.SavePage | cmd/untappd-saver/main.go:50-65 | the loop saves each check-in of the page in order (`SavePageStep`) |
| Saver.GetLatestCheckinIDKey | cmd/untappd-saver/main.go:134-164 | the bucket changes and the read answers as `GetCursorStep` |
| Saver.GetCursorSpec | cmd/untappd-saver/main.go:139-160 | no head support is an error with no request; NotFound reads as 0; other head failures are errors; otherwise the cursor is the "id" entry exactly when it is an Atoi-valid integer |
| Saver.UpdateLatestCheckinIDKey | cmd/untappd-saver/main.go:168-197 | the bucket changes as `UpdateAliasStep` |
| Saver.UpdateAliasGates | cmd/untappd-saver/main.go:173-195 | no copy support or a bad date is an error with no request; otherwise exactly one copy onto "latest.jpg" from path.Join(bucket, YYYY, MM, DD, "<id>.jpg") |
| Saver.RunSaver | cmd/untappd-saver/main.go:38-80 | a failed cursor read stops with no request and no fetch; otherwise the feed starts from the cursor, and the callback's saves and alias update are replayed over the delivered pages |
| Saver.HandlePages | cmd/untappd-saver/main.go:43-77 | the callback loop: every page saved, then after the first non-empty page the alias update, once |
| Saver.SaveAddsNoCopy | cmd/untappd-saver/main.go:83-132 | saving a photo never copies |
| Saver.PageAddsNoCopy | cmd/untappd-saver/main.go:50-65 | neither does saving a page |
| Saver.UpdateAddsOneCopy | cmd/untappd-saver/main.go:191-195 | the alias update makes at most one copy |
| Saver.ReplayAliasesFirstCheckin | cmd/untappd-saver/main.go:43-74 | over delivered pages: after the first page's saves the next request is the one copy from the dated photo of that page's first check-in (none without copy support or a date), and the rest of the run adds no copy |
| Saver.ReplayCopiesAtMostOnce | cmd/untappd-saver/main.go:43-74 | a run copies at most once, and never after `latestUpdated` is set, whether or not the update worked |
| Saver.AliasSource | cmd/untappd-saver/main.go:183-190 | the copy source is "bucket/" + the check-in's dated key |
| Saver.AliasCopiesSavedPhoto | cmd/untappd-saver/main.go:131-195 | after the saver uploaded c's photo, an update whose copy request does not fail copies it: "latest.jpg" holds its bytes and metadata, whose id reads back as c's id |
| Saver.IdOfSaverMetadata | cmd/untappd-saver/main.go:119-157 | the stored "id" entry reads back as the check-in id |
| Saver.CursorReadMissesAlias | cmd/untappd-saver/main.go:146-188 | the read uses "latest" but the update writes "latest.jpg", so the read after an update answers as the same request would on the objects from before it |
| Saver.AliasKeepsOthers | cmd/untappd-saver/main.go:188-195 | the alias update writes no key but "latest.jpg" |
| Saver.CursorStaysAtZero | cmd/untappd-saver/main.go:146-188 | an absent "latest" stays absent through updates, so every run whose cursor read does not fail starts from 0 |
| Backfill.LastIndex | cmd/backfill/main.go:157-159 | the last header position with the name, or none exactly when the name is absent |
| Backfill.BuildRecordMap | cmd/backfill/main.go:156-159 | the loop's map has exactly the header names as keys, each mapped to the cell of its last column |
| Backfill.RecordToCSVRecord | cmd/backfill/main.go:151-195 | the result is `MapRecord`: a length-mismatch error, or every field from its named column |
| Backfill.CellOfColumn | cmd/backfill/main.go:156-159 | a column is read wherever it sits in the header, when no later column shares its name |
| Backfill.CellOfMissing | cmd/backfill/main.go:161-193 | a column the header lacks reads as "" |
| Backfill.MapRecordSpec | cmd/backfill/main.go:152-193 | mapping fails exactly on a length mismatch; otherwise id, date and photo URL are their columns' cells |
| Backfill.LoadedRowsMap | cmd/backfill/main.go:152-154 | rows of a file the reader accepted always map |
| Backfill.LoadFailureDoesNothing | cmd/backfill/main.go:87-102 | an open, header or read-all failure returns an error with no request and no row handled |
| Backfill.OneOutcomePerRow | cmd/backfill/main.go:107-148 | every row gets exactly one outcome, and a loaded file's run returns nil |
| Backfill.CheckinExists | cmd/backfill/main.go:197-222 | the bucket changes and the answer is as `ExistsStep`: date, head of the parts key, three-way answer |
| Backfill.SaveCSVRecord | cmd/backfill/main.go:224-245 | a bad date is an error with nothing fetched; otherwise the photo pipeline with the row's metadata |
| Backfill.HandleRow | cmd/backfill/main.go:111-144 | one row's work changes the bucket and fetched URLs and yields the outcome of `RowStep` |
| Backfill.HandleRecord | cmd/backfill/main.go:121-143 | likewise for a mapped record (`RecordStep`) |
| Backfill.HandleRows | cmd/backfill/main.go:107-147 | the loop handles the rows in file order as `RowsStep` |
| Backfill.RunBackfill | cmd/backfill/main.go:86-149 | load, then handle the rows; the load's error or nil |
| Backfill.RowStepSpec | cmd/backfill/main.go:115-119 | a row is skipped exactly when its width differs from the header's, and then nothing happens; otherwise it is handled as its record |
| Backfill.RecordStepSpec | cmd/backfill/main.go:121-143 | a non-numeric id skips with no request. A failed or positive existence check skips with no write and no fetch. A saved record is one whose photo was absent |
| Backfill.ExistsKeepsObjects | cmd/backfill/main.go:209-212 | the existence check writes nothing |
| Backfill.ExistsMatchesClient | cmd/backfill/main.go:197-221 | the backfill's check heads the same key as the storage client's `CheckinExists`, with the same answer |
| Backfill.NoSlashInNumber | cmd/backfill/main.go:121-125 | an id Atoi accepts holds no slash |
| Backfill.MetadataKey | cmd/backfill/main.go:225-244 | the RFC 1123 date written into the metadata reads back as the row's time, so the photo is stored under the key the existence check heads |
| Backfill.SavedRowIsSkippedAfter | cmd/backfill/main.go:129-143 | a fully saved row is found by the next check whose request does not fail, so running it again skips it |
| Decimal.NatToString | internal/storage/client.go:212 | FormatUint's numeral: digits only, with no leading zero |
| Decimal.DigitsValueOfNatToString | internal/storage/client.go:212 | the numeral denotes the number |
| Decimal.ParseUint64OfNatToString | internal/storage/client.go:185-212 | ParseUint inverts FormatUint on every uint64 |
| Decimal.AtoiOfIntToString | cmd/untappd-saver/main.go:119-157 | Atoi inverts Itoa on every 64-bit int |
| Decimal.AtoiRejectsNonNumeric | internal/untappd/client.go:24 | a non-digit, other than one leading sign, makes Atoi fail |
| Decimal.TrimSpace | internal/storage/client.go:180 | the result is a middle slice of the input with white space only around it, and is not blank at either end |
| Decimal.TrimSpaceOfTrimmed | internal/storage/client.go:180 | TrimSpace leaves a string that is not blank at either end unchanged |
| Decimal.TrimSpaceOfDigits | internal/storage/client.go:180-212 | a numeral has nothing to trim |
| Clock.ParseRFC1123Z | internal/storage/client.go:97 | a parsed time is a valid calendar time |
| Clock.ParseDateTime | cmd/backfill/main.go:198 | a parsed time is valid and in UTC |
| Clock.ParseOfFormatRFC1123Z | cmd/backfill/main.go:237 | RFC 1123 text with numeric zone reads back as the time it was written from |
| Clock.ParseOfDateTimeText | cmd/backfill/main.go:198-225 | "2006-01-02 15:04:05" text of a UTC time reads back as itself |
| Clock.FormatYMDShape | internal/storage/client.go:104 | the directory is four digits of year, "/", two of month, "/", two of day |
| Clock.FormatNovember2025 | internal/storage/client_test.go:65 | 1 November 2025, midnight UTC, is written "Sat, 01 Nov 2025 00:00:00 +0000" |
| Clock.ParseNovember2025 | internal/storage/client_test.go:65 | and that text reads back as that time |
| Clock.DirectoryNovember2025 | internal/storage/client_test.go:50 | any time on that day has directory "2025/11/01" |
| Clock.FormatNewYear2023 | cmd/backfill/main_test.go:100 | the export's "2023-01-01 12:00:00" is written in metadata as "Sun, 01 Jan 2023 12:00:00 +0000" |
| FloatText.RoundHalfEven | internal/storage/r2.go:115 | the nearest integer, ties to even |
| FloatText.FormatFixedShape | internal/untappd/types.go:103 | `%f` text is non-empty, holds no comma, and ends in "." followed by exactly prec digits |
| FloatText.FormatFixedValue | internal/storage/r2.go:115-120 | the printed digits denote the absolute value of x times 10^prec, rounded half to even |
| Paths.JoinOfPlain | internal/storage/client.go:103-106 | joining segments with no slash or dot segment inserts single slashes |
| Paths.CleanOfPlain | internal/storage/client.go:103-106 | such a path is already clean |
| Paths.JoinSegsOfSplit | cmd/untappd-saver/main.go:187 | splitting on slashes and rejoining gives the path back |
| Paths.SplitOfJoinSegs | cmd/untappd-saver/main.go:187 | slash-free segments are recovered by splitting their join |

## Left out

- Network and SDK plumbing (R2 and S3 client configuration, HTTP clients, timeouts, contexts) is not modelled. The bucket is an object map with a request log. Any request may fail: the bucket is given the set of log positions whose requests fail, whatever their keys. So the round-trip properties (`ObjectStore.HeadAfterPut`, `StorageClient.UpdateThenGetLatest`, `StorageClient.UploadThenExists`, `Photo.WebpAfterUpload`, `Recorder.NextRunStartsAfter`, `Saver.AliasCopiesSavedPhoto`, `Saver.CursorStaysAtZero`, `Backfill.SavedRowIsSkippedAfter`) assume that the later request does not fail. Only the error kind of a failure is modelled, not its cause. The feed's network is a finite sequence of replies. The photo servers answer from a fixed map.
- `url.PathEscape` on the copy source turns each "/" into "%2F". The model reads the source as the plain "bucket/key", because S3 and R2 decode `CopySource` before looking the key up.
- The worker goroutines, semaphores and `sync.Once` are modelled as sequential loops over each page or file, in order. Concurrent interleavings, and the race on a set-once flag, are not modelled.
- The recorder's `processCheckins` only logs, because its save is switched off. Its loop is therefore not modelled; `Recorder.SaveCheckin` models the unused save.
- `vips` transcoding (internal/photo/photo.go:150-167) is a parameter of type `Bytes -> Result<Bytes, string>`.
- Reading the placeholder file is a parameter holding the read's result. Environment configuration (internal/config/config.go), flags, logging and `log.Fatalf` are not modelled. Where a command would exit, the model returns an error.
- The CSV reader is given as the rows it returns plus the index of the first row with a syntax error. Quoting rules and field-count checks beyond equal width are not modelled.
- The saver's `store.(headObjectClient)` and `store.(copyObjectClient)` type assertions are the booleans `canHead` and `canCopy`.
- The `since_url` grammar is not parsed: `url.Parse` is given as an optional query map. A URL that fails to parse is an error.
- Floating point is the exact real value of the float64. There is no -0.0, NaN or Inf. `%f` rounds half to even on that exact value, as `strconv` does.
- `ObjectStore.Bucket.ListObjects`: the listing order is left open, and the 1000-key page of `ListObjectsV2` is not modelled. The R2 cursor read is proved for every order.
- The bucket stamps one fixed `LastModified` time, a constant of the bucket, on every object it writes. There is no clock.
- `Clock.ParseRFC1123Z`: zone offsets are accepted up to ±24:00 in hours and ±60 minutes, as Go's parser accepts them. The round trip is proved for offsets strictly inside ±24:00. Nanoseconds are consumed but not stored, because no layout used prints them.
- `Recorder.SaveCheckin` requires the check-in to have a venue: cmd/record/main.go:98-104 dereferences the `*Venue` unconditionally, so a missing venue panics there.
- The saver and the R2 store read `Venue` as a value (cmd/untappd-saver/main.go:124-126, internal/storage/r2.go:116-118). A missing venue is read as Go's zero venue; `Checkin.Venue` is a `*Venue` only in internal/untappd/types.go.
- `Beer.BeerImage` is missing from internal/untappd/types.go but is used by the saver and the R2 store. It is modelled as a field of `Beer`.
- `UploadJPG` and `UploadWEBP`, which internal/photo/photo.go calls, are not in the `Storage` interface shown. `UploadJPG` is modelled as the client's `Upload`. `UploadWEBP` puts under the same dated key with ".webp".
- `Storage.GetLatestCheckinID` returns `int` in the interface but `uint64` in the client.
- Three calls do not compile as written. Go has no implicit conversions, and the model assumes the evident repairs:
  - cmd/record/main.go:40-46 passes the `uint64` cursor to `FetchCheckins`, which takes an `int`. `Recorder.AsInt64` is the assumed `int(x)`.
  - internal/storage/client.go:212 passes the `int` check-in id to `strconv.FormatUint`, which takes a `uint64`. `StorageClient.AsUint64` is the assumed `uint64(id)`.
  - cmd/record/main.go:110 and cmd/backfill/main.go:244 call a package function `photo.DownloadAndSave`. internal/photo/photo.go:43 defines only the `DefaultDownloader` method of that name. `Photo.DownloadAndSave` models that method, and both commands are taken to call it.
- `saveCSVRecord` sets a `ServingStyle` field that `CheckinMetadata` lacks. That field is dropped, as it would never be serialised by `ToMap`.
- Tests that name functions or signatures the code lacks are not modelled: `generateKey` in internal/storage/r2_test.go, the AVIF methods in internal/photo/photo_test.go, and a five-argument `runRecorder` in cmd/record/main_test.go. Nor is the key expected by `TestR2Client_SaveCheckin`, which differs from what `generateSanitizedKey` builds for that check-in. The model follows the code.
- A body over the cap whose read also fails is treated as the read failure, as `io.ReadAll` reports first.
- The duplicate `S3Client` declarations and the two module paths are not modelled; they do not affect behaviour.

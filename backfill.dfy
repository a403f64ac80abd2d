/** The backfill command: read an Untappd CSV export, and for every row that
    names a check-in whose photo is not stored yet, save it through the
    photo pipeline. Rows are handled one after another in file order; each
    row's failure is only logged. The file is given as the rows the CSV
    reader returns. */
module Backfill {
  import opened Wrappers
  import opened Decimal
  import opened Clock
  import opened ObjectStore
  import opened Storage
  import opened StorageClient
  import Photo
  import Web
  import Seqs

  /** A row of the export, by column name. */
  datatype CSVRecord = CSVRecord(
    beerName: string, breweryName: string, beerType: string, beerABV: string,
    beerIBU: string, comment: string, venueName: string, venueCity: string,
    venueState: string, venueCountry: string, venueLat: string, venueLng: string,
    ratingScore: string, createdAt: string, checkinURL: string, beerURL: string,
    breweryURL: string, breweryCountry: string, breweryCity: string, breweryState: string,
    flavorProfiles: string, purchaseVenue: string, servingType: string, checkinID: string,
    bid: string, breweryID: string, photoURL: string, globalRatingScore: string,
    globalWeightedRatingScore: string, taggedFriends: string, totalToasts: string,
    totalComments: string)

  function Get(m: map<string, string>, k: string): string {
    if k in m then m[k] else ""
  }

  /** The record whose every field is the named column of `m`, or "". */
  function FromColumns(m: map<string, string>): CSVRecord {
    CSVRecord(
      Get(m, "beer_name"), Get(m, "brewery_name"), Get(m, "beer_type"), Get(m, "beer_abv"),
      Get(m, "beer_ibu"), Get(m, "comment"), Get(m, "venue_name"), Get(m, "venue_city"),
      Get(m, "venue_state"), Get(m, "venue_country"), Get(m, "venue_lat"), Get(m, "venue_lng"),
      Get(m, "rating_score"), Get(m, "created_at"), Get(m, "checkin_url"), Get(m, "beer_url"),
      Get(m, "brewery_url"), Get(m, "brewery_country"), Get(m, "brewery_city"), Get(m, "brewery_state"),
      Get(m, "flavor_profiles"), Get(m, "purchase_venue"), Get(m, "serving_type"), Get(m, "checkin_id"),
      Get(m, "bid"), Get(m, "brewery_id"), Get(m, "photo_url"), Get(m, "global_rating_score"),
      Get(m, "global_weighted_rating_score"), Get(m, "tagged_friends"), Get(m, "total_toasts"),
      Get(m, "total_comments"))
  }

  /** The last column called `name`. */
  function LastIndex(header: seq<string>, name: string): (r: Option<nat>)
    ensures r.None? <==> name !in header
    ensures r.Some? ==> r.value < |header| && header[r.value] == name && name !in header[r.value + 1..]
    decreases |header|
  {
    if header == [] then None
    else if header[|header| - 1] == name then Some(|header| - 1)
    else
      var p := header[..|header| - 1];
      var r := LastIndex(p, name);
      assert header == p + [header[|header| - 1]];
      if r.Some? then
        assert header[r.value + 1..] == p[r.value + 1..] + [header[|header| - 1]];
        r
      else r
  }

  /** A row's value for a column: the last column of that name wins, and a
      column the header lacks reads as "". */
  function Cell(header: seq<string>, row: seq<string>, name: string): string {
    match LastIndex(header, name)
    case None => ""
    case Some(i) => if i < |row| then row[i] else ""
  }

  /** `recordToCSVRecord`, as a specification. */
  function MapRecord(header: seq<string>, row: seq<string>): Result<CSVRecord, string> {
    if |row| != |header| then Err("record length does not match header length")
    else Ok(FromColumns(Columns(header, row)))
  }

  /** Each column name of the header with its cell. */
  function Columns(header: seq<string>, row: seq<string>): map<string, string> {
    map k | k in header :: Cell(header, row, k)
  }

  /** The export as the CSV reader sees it: not there at all, or its rows
      and the index of the first row with a syntax error, if any. */
  datatype CsvFile = Unopenable | Rows(rows: seq<seq<string>>, syntaxError: Option<nat>)

  /** `Read` of the header, then `ReadAll` of the rest: every row the
      reader returns has as many fields as the header. */
  function LoadTable(f: CsvFile): Result<(seq<string>, seq<seq<string>>), string> {
    match f
    case Unopenable => Err("could not open csv file")
    case Rows(rows, bad) =>
      if rows == [] || bad == Some(0) then Err("could not read csv header")
      else if bad.Some? || exists k :: 1 <= k < |rows| && |rows[k]| != |rows[0]| then Err("could not read csv records")
      else Ok((rows[0], rows[1..]))
  }

  /** `checkinExists`: head the dated photo named by the row's raw id. */
  function ExistsStep(b: Bucket, s: State, rec: CSVRecord): (State, Result<bool, string>) {
    match ParseDateTime(rec.createdAt)
    case None => (s, Err("failed to parse checkin date"))
    case Some(t) =>
      var (s', h) := HeadStep(b, s, PartsKey(t, rec.checkinID + ".jpg"));
      (s', ExistsAnswer(h))
  }

  /** `saveCSVRecord`'s metadata: the row's own text, the date rewritten in
      RFC 1123 form, the coordinates joined by a comma. */
  function BackfillMetadata(rec: CSVRecord, t: DateTime): CheckinMetadata
    requires Valid(t)
  {
    Blank.(
      id := rec.checkinID,
      beer := rec.beerName,
      brewery := rec.breweryName,
      comment := rec.comment,
      rating := rec.ratingScore,
      venue := rec.venueName,
      date := FormatRFC1123Z(t),
      latLng := rec.venueLat + "," + rec.venueLng,
      style := rec.beerType,
      abv := rec.beerABV)
  }

  function SaveRecordStep(b: Bucket, o: Web.Origin, s: State, placeholder: Result<Bytes, string>, transcode: Photo.Transcoder, rec: CSVRecord): (State, Error) {
    match ParseDateTime(rec.createdAt)
    case None => (s, Some("failed to parse created_at"))
    case Some(t) => Photo.SaveStep(b, o, s, placeholder, transcode, rec.photoURL, BackfillMetadata(rec, t))
  }

  function SaveRecordFetches(rec: CSVRecord): seq<string> {
    if ParseDateTime(rec.createdAt).None? then [] else Web.Fetches(rec.photoURL)
  }

  /** What became of one row. */
  datatype Outcome = Unmapped | BadID | CheckFailed | AlreadySaved | Saved(err: Error)

  /** One row's effect: the bucket afterwards, the outcome, the URLs fetched. */
  datatype Step = Step(state: State, outcome: Outcome, fetched: seq<string>)

  function RowStep(b: Bucket, o: Web.Origin, s: State, placeholder: Result<Bytes, string>, transcode: Photo.Transcoder, header: seq<string>, row: seq<string>): Step {
    match MapRecord(header, row)
    case Err(_) => Step(s, Unmapped, [])
    case Ok(rec) => RecordStep(b, o, s, placeholder, transcode, rec)
  }

  /** The work on a mapped row: a numeric id, an absent photo, then the save. */
  function RecordStep(b: Bucket, o: Web.Origin, s: State, placeholder: Result<Bytes, string>, transcode: Photo.Transcoder, rec: CSVRecord): Step {
    if Atoi(rec.checkinID).None? then Step(s, BadID, [])
    else
      var (s1, ex) := ExistsStep(b, s, rec);
      if ex.Err? then Step(s1, CheckFailed, [])
      else if ex.value then Step(s1, AlreadySaved, [])
      else
        var (s2, e) := SaveRecordStep(b, o, s1, placeholder, transcode, rec);
        Step(s2, Saved(e), SaveRecordFetches(rec))
  }

  /** A run: the bucket afterwards, the error returned, each row's outcome,
      the URLs fetched. */
  datatype Run = Run(state: State, err: Error, outcomes: seq<Outcome>, fetched: seq<string>)

  function RowsStep(b: Bucket, o: Web.Origin, s: State, placeholder: Result<Bytes, string>, transcode: Photo.Transcoder, header: seq<string>, rows: seq<seq<string>>): Run
    decreases |rows|
  {
    if rows == [] then Run(s, None, [], [])
    else
      var st := RowStep(b, o, s, placeholder, transcode, header, rows[0]);
      var rest := RowsStep(b, o, st.state, placeholder, transcode, header, rows[1..]);
      Run(rest.state, None, [st.outcome] + rest.outcomes, st.fetched + rest.fetched)
  }

  function BackfillRun(b: Bucket, o: Web.Origin, s: State, placeholder: Result<Bytes, string>, transcode: Photo.Transcoder, f: CsvFile): Run {
    match LoadTable(f)
    case Err(e) => Run(s, Some(e), [], [])
    case Ok((header, rows)) => RowsStep(b, o, s, placeholder, transcode, header, rows)
  }

  method BuildRecordMap(header: seq<string>, row: seq<string>) returns (m: map<string, string>)
    requires |row| == |header|
    ensures forall k :: k in m <==> k in header
    ensures forall k :: k in m ==> m[k] == Cell(header, row, k)
  {
    m := map[];
    var i := 0;
    while i < |header|
      invariant 0 <= i <= |header|
      invariant forall k :: k in m <==> k in header[..i]
      invariant forall k :: k in m ==> m[k] == Cell(header[..i], row, k)
    {
      assert header[..i + 1][..i] == header[..i];
      assert header[..i + 1] == header[..i] + [header[i]];
      m := m[header[i] := row[i]];
      i := i + 1;
    }
    assert header[..i] == header;
  }

  method RecordToCSVRecord(row: seq<string>, header: seq<string>) returns (r: Result<CSVRecord, string>)
    ensures r == MapRecord(header, row)
  {
    if |row| != |header| {
      return Err("record length does not match header length");
    }
    var m := BuildRecordMap(header, row);
    assert m == Columns(header, row);
    r := Ok(FromColumns(m));
  }

  method CheckinExists(store: Client, rec: CSVRecord) returns (r: Result<bool, string>)
    modifies store.bucket
    ensures (store.bucket.Now(), r) == ExistsStep(store.bucket, old(store.bucket.Now()), rec)
  {
    var t := ParseDateTime(rec.createdAt);
    if t.None? {
      return Err("failed to parse checkin date");
    }
    var h := store.bucket.HeadObject(PartsKey(t.value, rec.checkinID + ".jpg"));
    r := ExistsAnswer(h);
  }

  method SaveCSVRecord(store: Client, web: Web.Origin, placeholder: Result<Bytes, string>, transcode: Photo.Transcoder, rec: CSVRecord)
    returns (err: Error)
    modifies store.bucket, web
    ensures web.fetched == old(web.fetched) + SaveRecordFetches(rec)
    ensures (store.bucket.Now(), err) == SaveRecordStep(store.bucket, web, old(store.bucket.Now()), placeholder, transcode, rec)
  {
    var t := ParseDateTime(rec.createdAt);
    if t.None? {
      return Some("failed to parse created_at");
    }
    err := Photo.DownloadAndSave(store, web, placeholder, transcode, rec.photoURL, BackfillMetadata(rec, t.value));
  }

  /** The work on one row. */
  method HandleRow(store: Client, web: Web.Origin, placeholder: Result<Bytes, string>, transcode: Photo.Transcoder, header: seq<string>, row: seq<string>)
    returns (outcome: Outcome)
    modifies store.bucket, web
    ensures var st := RowStep(store.bucket, web, old(store.bucket.Now()), placeholder, transcode, header, row);
      store.bucket.Now() == st.state && outcome == st.outcome && web.fetched == old(web.fetched) + st.fetched
  {
    var rec := RecordToCSVRecord(row, header);
    if rec.Err? {
      return Unmapped;
    }
    outcome := HandleRecord(store, web, placeholder, transcode, rec.value);
  }

  method HandleRecord(store: Client, web: Web.Origin, placeholder: Result<Bytes, string>, transcode: Photo.Transcoder, rec: CSVRecord)
    returns (outcome: Outcome)
    modifies store.bucket, web
    ensures var st := RecordStep(store.bucket, web, old(store.bucket.Now()), placeholder, transcode, rec);
      store.bucket.Now() == st.state && outcome == st.outcome && web.fetched == old(web.fetched) + st.fetched
  {
    if Atoi(rec.checkinID).None? {
      return BadID;
    }
    var found := CheckinExists(store, rec);
    if found.Err? {
      return CheckFailed;
    }
    if found.value {
      return AlreadySaved;
    }
    var e := SaveCSVRecord(store, web, placeholder, transcode, rec);
    return Saved(e);
  }

  method RunBackfill(store: Client, web: Web.Origin, placeholder: Result<Bytes, string>, transcode: Photo.Transcoder, f: CsvFile)
    returns (err: Error, outcomes: seq<Outcome>)
    modifies store.bucket, web
    ensures var run := BackfillRun(store.bucket, web, old(store.bucket.Now()), placeholder, transcode, f);
      store.bucket.Now() == run.state && err == run.err && outcomes == run.outcomes
      && web.fetched == old(web.fetched) + run.fetched
  {
    var table := LoadTable(f);
    if table.Err? {
      return Some(table.error), [];
    }
    var header, rows := table.value.0, table.value.1;
    outcomes := HandleRows(store, web, placeholder, transcode, header, rows);
    return None, outcomes;
  }

  /** The rows, one after another, in file order. */
  method HandleRows(store: Client, web: Web.Origin, placeholder: Result<Bytes, string>, transcode: Photo.Transcoder, header: seq<string>, rows: seq<seq<string>>)
    returns (outcomes: seq<Outcome>)
    modifies store.bucket, web
    ensures var run := RowsStep(store.bucket, web, old(store.bucket.Now()), placeholder, transcode, header, rows);
      store.bucket.Now() == run.state && outcomes == run.outcomes && web.fetched == old(web.fetched) + run.fetched
  {
    ghost var all := RowsStep(store.bucket, web, store.bucket.Now(), placeholder, transcode, header, rows);
    ghost var f0 := web.fetched;
    outcomes := [];
    var i := 0;
    while i < |rows|
      invariant 0 <= i <= |rows|
      invariant RowsStep(store.bucket, web, store.bucket.Now(), placeholder, transcode, header, rows[i..]).state == all.state
      invariant outcomes + RowsStep(store.bucket, web, store.bucket.Now(), placeholder, transcode, header, rows[i..]).outcomes == all.outcomes
      invariant web.fetched + RowsStep(store.bucket, web, store.bucket.Now(), placeholder, transcode, header, rows[i..]).fetched == f0 + all.fetched
    {
      assert rows[i..][1..] == rows[i + 1..];
      ghost var st := RowStep(store.bucket, web, store.bucket.Now(), placeholder, transcode, header, rows[i]);
      ghost var next := RowsStep(store.bucket, web, st.state, placeholder, transcode, header, rows[i + 1..]);
      assert RowsStep(store.bucket, web, store.bucket.Now(), placeholder, transcode, header, rows[i..])
        == Run(next.state, None, [st.outcome] + next.outcomes, st.fetched + next.fetched);
      ghost var f1 := web.fetched;
      var o := HandleRow(store, web, placeholder, transcode, header, rows[i]);
      Seqs.Associative(outcomes, [o], next.outcomes);
      assert web.fetched == f1 + st.fetched;
      Seqs.Associative(f1, st.fetched, next.fetched);
      outcomes := outcomes + [o];
      i := i + 1;
    }
  }

  // ---------------------------------------------------------------------
  // Reading rows

  /** A column is read from wherever it sits in the header, as long as no
      later column has the same name. */
  lemma CellOfColumn(header: seq<string>, row: seq<string>, i: nat)
    requires |row| == |header| && i < |header| && header[i] !in header[i + 1..]
    ensures Cell(header, row, header[i]) == row[i]
  {
  }

  /** A column the header lacks reads as "". */
  lemma CellOfMissing(header: seq<string>, row: seq<string>, name: string)
    requires name !in header
    ensures Cell(header, row, name) == ""
  {
  }

  /** Mapping fails exactly on a length mismatch; otherwise every field is
      its column's cell. */
  lemma MapRecordSpec(header: seq<string>, row: seq<string>)
    ensures MapRecord(header, row).Err? <==> |row| != |header|
    ensures MapRecord(header, row).Ok? ==>
      MapRecord(header, row).value.checkinID == Cell(header, row, "checkin_id")
      && MapRecord(header, row).value.createdAt == Cell(header, row, "created_at")
      && MapRecord(header, row).value.photoURL == Cell(header, row, "photo_url")
  {
  }

  /** The reader only hands over rows as wide as the header, so no row of a
      loaded file fails to map. */
  lemma LoadedRowsMap(f: CsvFile)
    requires LoadTable(f).Ok?
    ensures var (header, rows) := LoadTable(f).value;
      forall k :: 0 <= k < |rows| ==> MapRecord(header, rows[k]).Ok?
  {
    var rows := f.rows;
    forall k | 0 <= k < |rows| - 1
      ensures |rows[1..][k]| == |rows[0]|
    {
      assert rows[1..][k] == rows[k + 1];
    }
  }

  /** A file that does not load is an error before any request. */
  lemma LoadFailureDoesNothing(b: Bucket, o: Web.Origin, s: State, placeholder: Result<Bytes, string>, transcode: Photo.Transcoder, f: CsvFile)
    requires LoadTable(f).Err?
    ensures BackfillRun(b, o, s, placeholder, transcode, f) == Run(s, Some(LoadTable(f).error), [], [])
  {
  }

  /** Every row gets one outcome, and a loaded file's run never fails. */
  lemma {:induction false} OneOutcomePerRow(b: Bucket, o: Web.Origin, s: State, placeholder: Result<Bytes, string>, transcode: Photo.Transcoder, header: seq<string>, rows: seq<seq<string>>)
    ensures |RowsStep(b, o, s, placeholder, transcode, header, rows).outcomes| == |rows|
    ensures RowsStep(b, o, s, placeholder, transcode, header, rows).err == None
    decreases |rows|
  {
    if rows != [] {
      var st := RowStep(b, o, s, placeholder, transcode, header, rows[0]);
      OneOutcomePerRow(b, o, st.state, placeholder, transcode, header, rows[1..]);
    }
  }

  // ---------------------------------------------------------------------
  // One row

  /** A row fails to map exactly when its width differs from the header's,
      and then nothing happens; a mapped row is handled as its record. */
  lemma RowStepSpec(b: Bucket, o: Web.Origin, s: State, placeholder: Result<Bytes, string>, transcode: Photo.Transcoder, header: seq<string>, row: seq<string>)
    ensures var st := RowStep(b, o, s, placeholder, transcode, header, row);
      (st.outcome == Unmapped <==> |row| != |header|)
      && (st.outcome == Unmapped ==> st.state == s && st.fetched == [])
      && (|row| == |header| ==> st == RecordStep(b, o, s, placeholder, transcode, MapRecord(header, row).value))
  {
    if |row| == |header| {
      var rec := MapRecord(header, row).value;
      assert RecordStep(b, o, s, placeholder, transcode, rec).outcome != Unmapped;
    }
  }

  /** A record without a numeric id, or whose existence check fails or finds
      the photo, fetches nothing and writes nothing; a saved record was one
      whose photo was absent. */
  lemma RecordStepSpec(b: Bucket, o: Web.Origin, s: State, placeholder: Result<Bytes, string>, transcode: Photo.Transcoder, rec: CSVRecord)
    ensures var st := RecordStep(b, o, s, placeholder, transcode, rec);
      st.outcome != Unmapped
      && (st.outcome == BadID <==> Atoi(rec.checkinID).None?)
      && (st.outcome == BadID ==> st.state == s && st.fetched == [])
      && (st.outcome == CheckFailed || st.outcome == AlreadySaved ==> st.state.objects == s.objects && st.fetched == [])
      && (st.outcome.Saved? ==> ExistsStep(b, s, rec).1 == Ok(false) && st.fetched == SaveRecordFetches(rec))
  {
    if Atoi(rec.checkinID).Some? {
      ExistsKeepsObjects(b, s, rec);
    }
  }

  /** The existence check only asks: it writes nothing. */
  lemma ExistsKeepsObjects(b: Bucket, s: State, rec: CSVRecord)
    ensures ExistsStep(b, s, rec).0.objects == s.objects
  {
  }

  /** The backfill's check sees the same photo as the storage client's own
      existence check. */
  lemma ExistsMatchesClient(b: Bucket, s: State, rec: CSVRecord)
    ensures ExistsStep(b, s, rec).0 == StorageClient.ExistsStep(b, s, rec.checkinID, rec.createdAt).0
    ensures ExistsStep(b, s, rec).1.Ok? <==> StorageClient.ExistsStep(b, s, rec.checkinID, rec.createdAt).1.Ok?
    ensures ExistsStep(b, s, rec).1.Ok? ==> ExistsStep(b, s, rec).1 == StorageClient.ExistsStep(b, s, rec.checkinID, rec.createdAt).1
  {
    match ParseDateTime(rec.createdAt)
    case None =>
    case Some(t) =>
      PartsKeyIsDatedKey(t, rec.checkinID + ".jpg");
  }

  /** An id `Atoi` accepts holds no slash. */
  lemma NoSlashInNumber(s: string)
    requires Atoi(s).Some?
    ensures '/' !in s
  {
    if '/' in s {
      var k :| 0 <= k < |s| && s[k] == '/';
      AtoiRejectsNonNumeric(s, k);
    }
  }

  /** The stored date reads back as the row's time, so the photo is stored
      under the row's day. */
  lemma MetadataKey(rec: CSVRecord, t: DateTime)
    requires Valid(t) && t.offset == 0 && '/' !in rec.checkinID
    ensures ParseRFC1123Z(BackfillMetadata(rec, t).date) == Some(t)
    ensures UploadKey(BackfillMetadata(rec, t), ".jpg") == Some(PartsKey(t, rec.checkinID + ".jpg"))
  {
    ParseOfFormatRFC1123Z(t);
    PartsKeyIsDatedKey(t, rec.checkinID + ".jpg");
  }

  /** A fully saved row is found by the next existence check whose request
      does not fail: running the same row again skips it. */
  lemma SavedRowIsSkippedAfter(b: Bucket, o: Web.Origin, s: State, placeholder: Result<Bytes, string>, transcode: Photo.Transcoder, rec: CSVRecord)
    requires RecordStep(b, o, s, placeholder, transcode, rec).outcome == Saved(None)
    requires !Fails(b, RecordStep(b, o, s, placeholder, transcode, rec).state)
    ensures RecordStep(b, o, RecordStep(b, o, s, placeholder, transcode, rec).state, placeholder, transcode, rec).outcome == AlreadySaved
  {
    var t := ParseDateTime(rec.createdAt).value;
    var s1 := ExistsStep(b, s, rec).0;
    var md := BackfillMetadata(rec, t);
    NoSlashInNumber(rec.checkinID);
    MetadataKey(rec, t);
    var key := PartsKey(t, rec.checkinID + ".jpg");
    var file := Photo.Acquire(o, placeholder, rec.photoURL).value;
    Photo.SaveBytesEffect(b, s1, file, md, transcode);
    var s2 := RecordStep(b, o, s, placeholder, transcode, rec).state;
    assert s2 == Photo.SaveBytesStep(b, s1, file, md, transcode).0;
    assert key in s2.objects;
  }
}

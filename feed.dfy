/** The Untappd check-in feed client: the query each request carries, the
    decision taken on each response, and the pagination loop that follows
    the `since_url` cursor until a response says to stop.

    The network is a finite sequence of replies, one per request sent; the
    page processor is a function from a page of check-ins to an error. */
module Feed {
  import opened Wrappers
  import opened Decimal
  import opened Untappd
  import Seqs

  /** `url.Values`: each key with its values in order. */
  type Query = map<string, seq<string>>

  /** `url.Values.Get`: the first value of the key, "" when there is none. */
  function QueryGet(q: Query, key: string): string {
    if key in q && |q[key]| > 0 then q[key][0] else ""
  }

  /** The response's `pagination.since_url`, with its query as `url.Parse`
      reads it (`None` when the URL does not parse). */
  datatype Pagination = Pagination(sinceURL: string, sinceQuery: Option<Query>)

  /** The JSON body: undecodable, or its check-in items and pagination. */
  datatype Body = Malformed | Decoded(items: seq<Checkin>, pagination: Pagination)

  /** An HTTP response: status code, `X-Ratelimit-Remaining` header ("" when
      absent) and body. */
  datatype Response = Response(status: int, rateLimitRemaining: string, body: Body)

  /** What the network gives back for one request. */
  datatype Reply = Answer(response: Response) | SendFailed(reason: string)

  const StatusOK: int := 200

  /** `parseMinID`: the integer `min_id` of the cursor URL's query. */
  function ParseMinID(p: Pagination): Result<Int64, string> {
    if p.sinceQuery.None? then Err("invalid since_url")
    else
      var raw := QueryGet(p.sinceQuery.value, "min_id");
      if raw == "" then Err("min_id not found in since_url")
      else
        match Atoi(raw)
        case None => Err("invalid min_id")
        case Some(n) => Ok(n)
  }

  /** `buildRequest`'s query: the access token, and `min_id=n` to continue
      after check-in `n`, or `limit=1` to start from scratch when `n` is 0. */
  function BuildQuery(token: string, minID: Int64): Query {
    map["access_token" := [token]]
    + (if minID != 0 then map["min_id" := [IntToString(minID)]] else map["limit" := ["1"]])
  }

  /** `handleResponse`'s three results: the next cursor, whether to stop, and
      the error. */
  datatype Handled = Handled(newMinID: Int64, shouldBreak: bool, err: Error)

  /** The processor is called for a response exactly when it is a 200 that
      is not rate limited, decodes and holds at least one check-in. */
  predicate Delivers(r: Response) {
    r.status == StatusOK && r.rateLimitRemaining != "0" && r.body.Decoded? && |r.body.items| > 0
  }

  /** `handleResponse`. */
  function HandleResponse(r: Response, process: seq<Checkin> -> Error): Handled {
    if r.status != StatusOK then Handled(0, true, Some("API request failed"))
    else if r.rateLimitRemaining == "0" then Handled(0, true, None)
    else if r.body.Malformed? then Handled(0, true, Some("failed to decode response"))
    else if |r.body.items| == 0 then Handled(0, true, None)
    else if process(r.body.items).Some? then Handled(0, true, Some("failed to process checkins"))
    else if r.body.pagination.sinceURL == "" then Handled(0, true, None)
    else
      match ParseMinID(r.body.pagination)
      case Err(_) => Handled(0, true, Some("failed to parse min_id from since_url"))
      case Ok(n) => Handled(n, false, None)
  }

  /** A run of `FetchCheckins`: the queries sent, the pages handed to the
      processor, in order, and the error returned. */
  datatype Trace = Trace(requests: seq<Query>, pages: seq<seq<Checkin>>, err: Error)

  /** The run, as a specification: send, handle, and go on from the new
      cursor until told to stop. A network with no reply left fails the
      send. */
  function Fetch(token: string, minID: Int64, replies: seq<Reply>, process: seq<Checkin> -> Error): Trace
    decreases |replies|
  {
    var q := BuildQuery(token, minID);
    if replies == [] then Trace([q], [], Some("failed to send request"))
    else if replies[0].SendFailed? then Trace([q], [], Some("failed to send request"))
    else
      var r := replies[0].response;
      var h := HandleResponse(r, process);
      var page := if Delivers(r) then [r.body.items] else [];
      if h.err.Some? then Trace([q], page, Some("failed to handle response"))
      else if h.shouldBreak then Trace([q], page, None)
      else
        var t := Fetch(token, h.newMinID, replies[1..], process);
        Trace([q] + t.requests, page + t.pages, t.err)
  }

  /** `FetchCheckins`: the loop that updates the cursor until a response
      says to stop. */
  method FetchCheckins(token: string, sinceID: Int64, replies: seq<Reply>, process: seq<Checkin> -> Error)
    returns (err: Error, requests: seq<Query>, pages: seq<seq<Checkin>>)
    ensures Trace(requests, pages, err) == Fetch(token, sinceID, replies, process)
  {
    var minID := sinceID;
    var i := 0;
    requests, pages := [], [];
    while true
      invariant 0 <= i <= |replies|
      invariant var t := Fetch(token, minID, replies[i..], process);
        Trace(requests + t.requests, pages + t.pages, t.err) == Fetch(token, sinceID, replies, process)
      decreases |replies| - i
    {
      var q := BuildQuery(token, minID);
      assert replies[i..] == [] || replies[i..][0] == replies[i];
      if i == |replies| || replies[i].SendFailed? {
        requests := requests + [q];
        return Some("failed to send request"), requests, pages;
      }
      var r := replies[i].response;
      var h := HandleResponse(r, process);
      assert replies[i..][1..] == replies[i + 1..];
      var page := if Delivers(r) then [r.body.items] else [];
      ghost var rest := Fetch(token, h.newMinID, replies[i + 1..], process);
      Seqs.Associative(requests, [q], rest.requests);
      Seqs.Associative(pages, page, rest.pages);
      requests := requests + [q];
      pages := pages + page;
      if h.err.Some? {
        return Some("failed to handle response"), requests, pages;
      }
      if h.shouldBreak {
        return None, requests, pages;
      }
      minID := h.newMinID;
      i := i + 1;
    }
  }

  // ---------------------------------------------------------------------
  // One response

  /** A non-200 status is an error, and the processor is not called. */
  lemma NonOKFails(r: Response, process: seq<Checkin> -> Error)
    requires r.status != StatusOK
    ensures HandleResponse(r, process).shouldBreak && HandleResponse(r, process).err.Some?
    ensures !Delivers(r)
  {
  }

  /** An exhausted rate limit stops cleanly without calling the processor,
      even when the body would decode. */
  lemma RateLimitStops(r: Response, process: seq<Checkin> -> Error)
    requires r.status == StatusOK && r.rateLimitRemaining == "0"
    ensures HandleResponse(r, process) == Handled(0, true, None) && !Delivers(r)
  {
  }

  /** A page without check-ins stops cleanly without calling the processor. */
  lemma EmptyPageStops(r: Response, process: seq<Checkin> -> Error)
    requires r.status == StatusOK && r.rateLimitRemaining != "0"
    requires r.body.Decoded? && r.body.items == []
    ensures HandleResponse(r, process) == Handled(0, true, None) && !Delivers(r)
  {
  }

  /** A delivered page whose processing fails is an error. */
  lemma ProcessorErrorFails(r: Response, process: seq<Checkin> -> Error)
    requires Delivers(r) && process(r.body.items).Some?
    ensures HandleResponse(r, process).shouldBreak && HandleResponse(r, process).err.Some?
  {
  }

  /** After a processed page: no cursor stops cleanly, a cursor with a
      numeric `min_id` continues from it, and any other cursor is an error. */
  lemma ProcessedPageContinues(r: Response, process: seq<Checkin> -> Error)
    requires Delivers(r) && process(r.body.items).None?
    ensures var h := HandleResponse(r, process); var p := r.body.pagination;
      (p.sinceURL == "" ==> h == Handled(0, true, None))
      && (p.sinceURL != "" && ParseMinID(p).Ok? ==> h == Handled(ParseMinID(p).value, false, None))
      && (p.sinceURL != "" && ParseMinID(p).Err? ==> h.shouldBreak && h.err.Some?)
  {
  }

  /** Only a response that continues leaves the next cursor to use, and it
      never carries an error. */
  lemma HandledShape(r: Response, process: seq<Checkin> -> Error)
    ensures var h := HandleResponse(r, process);
      (h.err.Some? ==> h.shouldBreak) && (!h.shouldBreak ==> Delivers(r))
      && (h.shouldBreak ==> h.newMinID == 0)
  {
  }

  // ---------------------------------------------------------------------
  // Queries and cursors

  /** `parseMinID` fails exactly when the cursor has no usable `min_id`, and
      otherwise returns its value. */
  lemma ParseMinIDSpec(p: Pagination)
    ensures ParseMinID(p).Ok? <==>
      p.sinceQuery.Some? && Atoi(QueryGet(p.sinceQuery.value, "min_id")).Some?
    ensures ParseMinID(p).Ok? ==> ParseMinID(p).value == Atoi(QueryGet(p.sinceQuery.value, "min_id")).value
  {
  }

  /** Every query carries the token; it carries `min_id` exactly when the
      cursor is not 0, and `limit=1` exactly when it is. */
  lemma BuildQuerySpec(token: string, minID: Int64)
    ensures var q := BuildQuery(token, minID);
      q["access_token"] == [token]
      && ("min_id" in q <==> minID != 0) && ("limit" in q <==> minID == 0)
      && (minID != 0 ==> q["min_id"] == [IntToString(minID)])
      && (minID == 0 ==> q["limit"] == ["1"])
      && q.Keys <= {"access_token", "min_id", "limit"}
  {
  }

  /** A cursor URL whose query is the one this client sends with `min_id=n`
      reads back as `n`. */
  lemma ParseMinIDOfBuildQuery(url: string, token: string, n: Int64)
    requires n != 0
    ensures ParseMinID(Pagination(url, Some(BuildQuery(token, n)))) == Ok(n)
  {
    AtoiOfIntToString(n);
    var q := BuildQuery(token, n);
    assert QueryGet(q, "min_id") == IntToString(n);
    if n < 0 {
      assert IntToString(n)[0] == '-';
    } else {
      assert IntToString(n) == NatToString(n);
    }
  }

  // ---------------------------------------------------------------------
  // The whole run

  /** The page of a reply the processor sees, if any. */
  function DeliveredBy(rep: Reply): seq<seq<Checkin>> {
    if rep.Answer? && Delivers(rep.response) then [rep.response.body.items] else []
  }

  /** The pages of these replies the processor sees, in order. */
  function Delivered(replies: seq<Reply>): seq<seq<Checkin>>
    decreases |replies|
  {
    if replies == [] then [] else DeliveredBy(replies[0]) + Delivered(replies[1..])
  }

  /** One request per reply consumed, the first with the caller's cursor;
      the processor sees the delivered pages of exactly those replies, in
      fetch order; every page it sees is non-empty. */
  lemma FetchOrder(token: string, minID: Int64, replies: seq<Reply>, process: seq<Checkin> -> Error)
    ensures var t := Fetch(token, minID, replies, process);
      1 <= |t.requests| <= |replies| + 1
      && t.requests[0] == BuildQuery(token, minID)
      && t.pages == Delivered(replies[..if |t.requests| <= |replies| then |t.requests| else |replies|])
      && (forall k :: 0 <= k < |t.pages| ==> |t.pages[k]| > 0)
  {
    var t := Fetch(token, minID, replies, process);
    FetchRequests(token, minID, replies, process);
    FetchPages(token, minID, replies, process);
    DeliveredNonEmpty(replies[..if |t.requests| <= |replies| then |t.requests| else |replies|]);
  }

  /** At most one request per reply, and one more when the replies run out. */
  lemma {:induction false} FetchRequests(token: string, minID: Int64, replies: seq<Reply>, process: seq<Checkin> -> Error)
    ensures var t := Fetch(token, minID, replies, process);
      1 <= |t.requests| <= |replies| + 1 && t.requests[0] == BuildQuery(token, minID)
    decreases |replies|
  {
    if replies != [] && replies[0].Answer? {
      var h := HandleResponse(replies[0].response, process);
      if h.err.None? && !h.shouldBreak {
        FetchRequests(token, h.newMinID, replies[1..], process);
      }
    }
  }

  /** The pages handed over are the delivered pages of the replies used. */
  lemma {:induction false} FetchPages(token: string, minID: Int64, replies: seq<Reply>, process: seq<Checkin> -> Error)
    ensures var t := Fetch(token, minID, replies, process);
      t.pages == Delivered(replies[..if |t.requests| <= |replies| then |t.requests| else |replies|])
    decreases |replies|
  {
    var t := Fetch(token, minID, replies, process);
    var q := BuildQuery(token, minID);
    FetchRequests(token, minID, replies, process);
    if replies != [] {
      assert replies[..1] == [replies[0]];
      assert Delivered([replies[0]]) == DeliveredBy(replies[0]) + Delivered([]);
      if replies[0].Answer? {
        var h := HandleResponse(replies[0].response, process);
        if h.err.None? && !h.shouldBreak {
          var rest := replies[1..];
          FetchPages(token, h.newMinID, rest, process);
          FetchRequests(token, h.newMinID, rest, process);
          var u := Fetch(token, h.newMinID, rest, process);
          FetchContinues(token, minID, replies, process);
          var n := if |u.requests| <= |rest| then |u.requests| else |rest|;
          assert (if |t.requests| <= |replies| then |t.requests| else |replies|) == n + 1;
          Seqs.TakeCons(replies, n);
          assert replies[..n + 1][1..] == rest[..n];
        }
      }
    }
  }

  /** A reply that asks for more: its page, then the run from the new cursor. */
  lemma FetchContinues(token: string, minID: Int64, replies: seq<Reply>, process: seq<Checkin> -> Error)
    requires replies != [] && replies[0].Answer?
    requires HandleResponse(replies[0].response, process).err.None? && !HandleResponse(replies[0].response, process).shouldBreak
    ensures var u := Fetch(token, HandleResponse(replies[0].response, process).newMinID, replies[1..], process);
      Fetch(token, minID, replies, process) == Trace([BuildQuery(token, minID)] + u.requests, DeliveredBy(replies[0]) + u.pages, u.err)
  {
  }

  /** Only non-empty pages are delivered. */
  lemma {:induction false} DeliveredNonEmpty(replies: seq<Reply>)
    ensures forall k :: 0 <= k < |Delivered(replies)| ==> |Delivered(replies)[k]| > 0
    decreases |replies|
  {
    if replies != [] {
      DeliveredNonEmpty(replies[1..]);
      var d, e := DeliveredBy(replies[0]), Delivered(replies[1..]);
      assert Delivered(replies) == d + e;
      forall k | 0 <= k < |d + e|
        ensures |(d + e)[k]| > 0
      {
        if k >= |d| {
          assert (d + e)[k] == e[k - |d|];
        }
      }
    }
  }

  /** The run ends without error only on a clean stop: a reply that was
      answered and told the loop to stop without an error. */
  lemma {:induction false} FetchCleanEnd(token: string, minID: Int64, replies: seq<Reply>, process: seq<Checkin> -> Error)
    ensures var t := Fetch(token, minID, replies, process);
      t.err.None? ==>
        |t.requests| <= |replies|
        && replies[|t.requests| - 1].Answer?
        && var h := HandleResponse(replies[|t.requests| - 1].response, process);
           h.shouldBreak && h.err.None?
    decreases |replies|
  {
    if replies != [] && replies[0].Answer? {
      var h := HandleResponse(replies[0].response, process);
      if h.err.None? && !h.shouldBreak {
        FetchCleanEnd(token, h.newMinID, replies[1..], process);
        var u := Fetch(token, h.newMinID, replies[1..], process);
        if u.err.None? {
          assert replies[1..][|u.requests| - 1] == replies[|u.requests|];
        }
      }
    }
  }

  /** A processor that fails on the first page it sees ends the run with an
      error after that one page. */
  lemma FirstDeliveredPageFails(token: string, minID: Int64, replies: seq<Reply>, process: seq<Checkin> -> Error)
    requires replies != [] && replies[0].Answer? && Delivers(replies[0].response)
    requires process(replies[0].response.body.items).Some?
    ensures Fetch(token, minID, replies, process)
            == Trace([BuildQuery(token, minID)], [replies[0].response.body.items], Some("failed to handle response"))
  {
  }
}

/** The web servers photos are fetched from: a fixed answer per URL, and a
    log of the URLs fetched. */
module Web {
  import opened Wrappers
  import opened ObjectStore

  /** No response at all (unreachable host, a URL that does not parse), or
      a status, a body, and whether reading the body fails part way. */
  datatype Reply = Unreachable | Response(status: int, body: Bytes, readFails: bool)

  const StatusOK: int := 200

  class Origin {
    const replies: map<string, Reply>
    var fetched: seq<string>

    constructor (replies: map<string, Reply>)
      ensures this.replies == replies && fetched == []
    {
      this.replies := replies;
      fetched := [];
    }

    /** What a GET of `url` gives. */
    function ReplyFor(url: string): Reply {
      if url in replies then replies[url] else Unreachable
    }

    method Fetch(url: string) returns (r: Reply)
      modifies this
      ensures fetched == old(fetched) + [url]
      ensures r == ReplyFor(url)
    {
      fetched := fetched + [url];
      r := ReplyFor(url);
    }
  }

  /** The URLs fetched to get a photo at `url`: none for an empty URL. */
  function Fetches(url: string): seq<string> {
    if url == "" then [] else [url]
  }

  /** The body of an answer read without a size cap, as `http.Get` followed
      by `io.ReadAll` gives it to the older saver. */
  function Body(r: Reply): (b: Result<Bytes, string>)
    ensures b.Ok? <==> r.Response? && r.status == StatusOK && !r.readFails
    ensures b.Ok? ==> b.value == r.body
  {
    match r
    case Unreachable => Err("failed to download photo")
    case Response(status, body, readFails) =>
      if status != StatusOK then Err("failed to download photo: bad status")
      else if readFails then Err("failed to read photo bytes")
      else Ok(body)
  }
}

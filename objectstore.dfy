/** An S3-compatible bucket, as the storage adapters use it: a map from keys
    to objects, and a log of the requests it has served. What each request
    does to the bucket is a pure step function of the bucket's state, so the
    adapters built on it can be specified by composing steps.

    The bucket's behaviour that does not depend on its contents is fixed
    when it is made: the keys whose requests fail (other than by the key
    being absent), whether listing fails, and the time it stamps on the
    objects it writes. */
module ObjectStore {
  import opened Wrappers

  type Byte = b: int | 0 <= b < 256

  type Bytes = seq<Byte>

  /** User metadata: `x-amz-meta-*` names to values. */
  type Metadata = map<string, string>

  datatype Object = Object(body: Bytes, metadata: Metadata, contentType: string, lastModified: int)

  /** `types.NotFound` (the key is absent), or any other failure. */
  datatype StoreError = NotFound | Failed

  /** One request, as the bucket sees it. */
  datatype Call =
    | Put(key: string, body: Bytes)
    | Head(key: string)
    | Get(key: string)
    | Copy(key: string, source: string)
    | List

  /** The metadata and content type a copy writes instead of the source's
      (`MetadataDirective: REPLACE`). */
  datatype Replacement = Replacement(metadata: Metadata, contentType: string)

  /** One line of a listing. */
  datatype Entry = Entry(key: string, lastModified: int)

  datatype State = State(objects: map<string, Object>, calls: seq<Call>)

  class Bucket {
    const name: string
    /** The positions in the request log (counted from 0) of the requests
        that fail with an error other than `NotFound`: any request may fail,
        whatever its key and whatever came before it. */
    const failing: set<nat>
    /** The `LastModified` time the bucket stamps on what it writes. */
    const clock: int
    var objects: map<string, Object>
    var calls: seq<Call>

    function Now(): State
      reads this
    {
      State(objects, calls)
    }

    constructor (name: string, failing: set<nat>, clock: int, objects: map<string, Object>)
      ensures this.name == name && this.failing == failing && this.clock == clock
      ensures Now() == State(objects, [])
    {
      this.name := name;
      this.failing := failing;
      this.clock := clock;
      this.objects := objects;
      this.calls := [];
    }

    method PutObject(key: string, body: Bytes, metadata: Metadata, contentType: string) returns (err: Option<StoreError>)
      modifies this
      ensures (Now(), err) == PutStep(this, old(Now()), key, body, metadata, contentType)
    {
      var failed := |calls| in failing;
      calls := calls + [Put(key, body)];
      if failed {
        return Some(Failed);
      }
      objects := objects[key := Object(body, metadata, contentType, clock)];
      return None;
    }

    method HeadObject(key: string) returns (r: Result<Metadata, StoreError>)
      modifies this
      ensures (Now(), r) == HeadStep(this, old(Now()), key)
    {
      var failed := |calls| in failing;
      calls := calls + [Head(key)];
      if failed {
        return Err(Failed);
      }
      if key !in objects {
        return Err(NotFound);
      }
      return Ok(objects[key].metadata);
    }

    method GetObject(key: string) returns (r: Result<Bytes, StoreError>)
      modifies this
      ensures (Now(), r) == GetStep(this, old(Now()), key)
    {
      var failed := |calls| in failing;
      calls := calls + [Get(key)];
      if failed {
        return Err(Failed);
      }
      if key !in objects {
        return Err(NotFound);
      }
      return Ok(objects[key].body);
    }

    method CopyObject(key: string, source: string, replace: Option<Replacement>) returns (err: Option<StoreError>)
      modifies this
      ensures (Now(), err) == CopyStep(this, old(Now()), key, source, replace)
    {
      var failed := |calls| in failing;
      calls := calls + [Copy(key, source)];
      var from := SourceKey(name, source);
      if from.None? || failed {
        return Some(Failed);
      }
      if from.value !in objects {
        return Some(NotFound);
      }
      objects := objects[key := Copied(objects[from.value], replace, clock)];
      return None;
    }

    /** `ListObjectsV2`: every object once, in an order the model leaves open. */
    method ListObjects() returns (r: Result<seq<Entry>, StoreError>)
      modifies this
      ensures Now() == State(old(objects), old(calls) + [List])
      ensures Fails(this, old(Now())) ==> r == Err(Failed)
      ensures !Fails(this, old(Now())) ==> r.Ok? && Listing(r.value, objects)
    {
      var failed := |calls| in failing;
      calls := calls + [List];
      if failed {
        return Err(Failed);
      }
      var left := objects.Keys;
      var out: seq<Entry> := [];
      while left != {}
        invariant left <= objects.Keys
        invariant forall i :: 0 <= i < |out| ==> out[i].key in objects && out[i].key !in left
        invariant forall i :: 0 <= i < |out| ==> out[i].lastModified == objects[out[i].key].lastModified
        invariant forall i, j :: 0 <= i < j < |out| ==> out[i].key != out[j].key
        invariant forall k :: k in objects && k !in left ==> exists i :: 0 <= i < |out| && out[i].key == k
        decreases left
      {
        var k :| k in left;
        ghost var before := out;
        out := out + [Entry(k, objects[k].lastModified)];
        assert out[|before|].key == k;
        assert forall i :: 0 <= i < |before| ==> out[i] == before[i];
        left := left - {k};
      }
      return Ok(out);
    }
  }

  /** A listing of `objects`: each object exactly once, with its time. */
  predicate Listing(es: seq<Entry>, objects: map<string, Object>) {
    (forall i :: 0 <= i < |es| ==> es[i].key in objects && es[i].lastModified == objects[es[i].key].lastModified)
    && (forall i, j :: 0 <= i < j < |es| ==> es[i].key != es[j].key)
    && (forall k :: k in objects ==> exists i :: 0 <= i < |es| && es[i].key == k)
  }

  /** The key a `CopySource` of "bucket/key" names in the bucket called
      `name`; `None` when it names no key of that bucket. */
  function SourceKey(name: string, source: string): (r: Option<string>)
    ensures r.Some? <==> |source| > |name| && source[..|name| + 1] == name + "/"
    ensures r.Some? ==> name + "/" + r.value == source
  {
    if |source| > |name| && source[..|name| + 1] == name + "/" then
      assert name + "/" + source[|name| + 1..] == source[..|name| + 1] + source[|name| + 1..];
      Some(source[|name| + 1..])
    else None
  }

  /** The object a copy writes: the source's bytes, with the source's
      metadata and content type unless they are replaced. */
  function Copied(src: Object, replace: Option<Replacement>, clock: int): Object {
    match replace
    case None => Object(src.body, src.metadata, src.contentType, clock)
    case Some(rep) => Object(src.body, rep.metadata, rep.contentType, clock)
  }

  /** The next request made in state `s` fails. */
  predicate Fails(b: Bucket, s: State) {
    |s.calls| in b.failing
  }

  function PutStep(b: Bucket, s: State, key: string, body: Bytes, metadata: Metadata, contentType: string): (State, Option<StoreError>) {
    var calls := s.calls + [Put(key, body)];
    if Fails(b, s) then (State(s.objects, calls), Some(Failed))
    else (State(s.objects[key := Object(body, metadata, contentType, b.clock)], calls), None)
  }

  function HeadStep(b: Bucket, s: State, key: string): (State, Result<Metadata, StoreError>) {
    var s' := State(s.objects, s.calls + [Head(key)]);
    if Fails(b, s) then (s', Err(Failed))
    else if key !in s.objects then (s', Err(NotFound))
    else (s', Ok(s.objects[key].metadata))
  }

  function GetStep(b: Bucket, s: State, key: string): (State, Result<Bytes, StoreError>) {
    var s' := State(s.objects, s.calls + [Get(key)]);
    if Fails(b, s) then (s', Err(Failed))
    else if key !in s.objects then (s', Err(NotFound))
    else (s', Ok(s.objects[key].body))
  }

  function CopyStep(b: Bucket, s: State, key: string, source: string, replace: Option<Replacement>): (State, Option<StoreError>) {
    var calls := s.calls + [Copy(key, source)];
    var from := SourceKey(b.name, source);
    if from.None? || Fails(b, s) then (State(s.objects, calls), Some(Failed))
    else if from.value !in s.objects then (State(s.objects, calls), Some(NotFound))
    else (State(s.objects[key := Copied(s.objects[from.value], replace, b.clock)], calls), None)
  }

  /** A head or a get right after a successful put answers with what the
      put wrote, unless that request fails itself. */
  lemma HeadAfterPut(b: Bucket, s: State, key: string, body: Bytes, metadata: Metadata, contentType: string)
    requires PutStep(b, s, key, body, metadata, contentType).1.None?
    requires !Fails(b, PutStep(b, s, key, body, metadata, contentType).0)
    ensures HeadStep(b, PutStep(b, s, key, body, metadata, contentType).0, key).1 == Ok(metadata)
    ensures GetStep(b, PutStep(b, s, key, body, metadata, contentType).0, key).1 == Ok(body)
  {
  }

  /** A put changes no other key. */
  lemma PutKeepsOtherKeys(b: Bucket, s: State, key: string, body: Bytes, metadata: Metadata, contentType: string, other: string)
    requires other != key
    ensures var s' := PutStep(b, s, key, body, metadata, contentType).0;
      (other in s'.objects <==> other in s.objects) && (other in s.objects ==> s'.objects[other] == s.objects[other])
  {
  }

  /** A copy writes only its destination, and leaves its source as it was. */
  lemma CopyKeepsOtherKeys(b: Bucket, s: State, key: string, source: string, replace: Option<Replacement>, other: string)
    requires other != key
    ensures var s' := CopyStep(b, s, key, source, replace).0;
      (other in s'.objects <==> other in s.objects) && (other in s.objects ==> s'.objects[other] == s.objects[other])
  {
  }

  /** Reads never change the objects. */
  lemma ReadsKeepObjects(b: Bucket, s: State, key: string)
    ensures HeadStep(b, s, key).0.objects == s.objects && GetStep(b, s, key).0.objects == s.objects
  {
  }

  /** A copy source written as "bucket/key" names that key of that bucket. */
  lemma SourceKeyOfPath(name: string, key: string)
    ensures SourceKey(name, name + "/" + key) == Some(key)
  {
    var source := name + "/" + key;
    assert source[..|name| + 1] == name + "/";
    var r := SourceKey(name, source);
    assert name + "/" + r.value == name + "/" + key;
    assert r.value == (name + "/" + r.value)[|name| + 1..];
  }
}

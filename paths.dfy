/** Go's `path.Join` and `path.Clean` on slash-separated object keys. A path
    is read as its segments between slashes; cleaning drops empty and "."
    segments, lets ".." cancel the segment before it, and keeps a leading
    slash. */
module Paths {

  /** The segments of `p` between slashes: "a//b" has the segments "a", "", "b". */
  function Split(p: string): (r: seq<string>)
    ensures |r| >= 1
    ensures forall i :: 0 <= i < |r| ==> '/' !in r[i]
    decreases |p|
  {
    if p == [] then [[]]
    else if p[0] == '/' then [[]] + Split(p[1..])
    else
      var t := Split(p[1..]);
      [[p[0]] + t[0]] + t[1..]
  }

  /** The segments written back with a slash between each two. */
  function JoinSegs(segs: seq<string>): string
    decreases |segs|
  {
    if segs == [] then []
    else if |segs| == 1 then segs[0]
    else segs[0] + "/" + JoinSegs(segs[1..])
  }

  /** Splitting loses nothing. */
  lemma {:induction false} JoinSegsOfSplit(p: string)
    ensures JoinSegs(Split(p)) == p
    decreases |p|
  {
    if p != [] {
      JoinSegsOfSplit(p[1..]);
      var t := Split(p[1..]);
      if p[0] == '/' {
        assert Split(p) == [[]] + t;
        assert ([[]] + t)[1..] == t;
      } else {
        var r := [[p[0]] + t[0]] + t[1..];
        assert r[1..] == t[1..];
        if |t| > 1 {
          assert JoinSegs(t) == t[0] + "/" + JoinSegs(t[1..]);
        }
      }
    }
  }

  /** Segments free of slashes are found again by splitting their join. */
  lemma {:induction false} SplitOfJoinSegs(segs: seq<string>)
    requires |segs| >= 1 && forall i :: 0 <= i < |segs| ==> '/' !in segs[i]
    ensures Split(JoinSegs(segs)) == segs
    decreases |segs|
  {
    if |segs| == 1 {
      SplitOfSegment(segs[0], []);
      assert segs[0] + [] == segs[0];
      assert Split([]) == [[]];
    } else {
      SplitOfJoinSegs(segs[1..]);
      var rest := JoinSegs(segs[1..]);
      SplitOfSegment(segs[0], "/" + rest);
      assert ("/" + rest)[1..] == rest;
      assert Split("/" + rest) == [[]] + segs[1..];
      assert segs[0] + "/" + rest == segs[0] + ("/" + rest);
      assert segs[0] + [] == segs[0];
      assert [segs[0]] + segs[1..] == segs;
    }
  }

  /** A slash-free prefix extends the first segment of what follows it. */
  lemma {:induction false} SplitOfSegment(a: string, rest: string)
    requires '/' !in a
    requires rest == [] || rest[0] == '/'
    ensures |Split(rest)| >= 1
    ensures Split(a + rest) == [a + Split(rest)[0]] + Split(rest)[1..]
    decreases |a|
  {
    if a != [] {
      assert (a + rest)[1..] == a[1..] + rest;
      assert '/' !in a[1..];
      SplitOfSegment(a[1..], rest);
      assert [a[0]] + (a[1..] + Split(rest)[0]) == a + Split(rest)[0];
    } else {
      assert a + rest == rest;
      var t := Split(rest);
      assert [] + t[0] == t[0];
      assert [t[0]] + t[1..] == t;
    }
  }

  /** A segment that `Clean` keeps as it is. */
  predicate Plain(seg: string) {
    seg != "" && seg != "." && seg != ".." && '/' !in seg
  }

  /** One step of `Clean` over the segments kept so far. */
  function Step(stack: seq<string>, seg: string, rooted: bool): seq<string> {
    if seg == "" || seg == "." then stack
    else if seg == ".." then
      (if |stack| > 0 && stack[|stack| - 1] != ".." then stack[..|stack| - 1]
       else if rooted then stack
       else stack + [".."])
    else stack + [seg]
  }

  function Fold(stack: seq<string>, segs: seq<string>, rooted: bool): seq<string>
    decreases |segs|
  {
    if segs == [] then stack else Fold(Step(stack, segs[0], rooted), segs[1..], rooted)
  }

  /** `path.Clean(p)`: the shortest equivalent path; "." for nothing. */
  function Clean(p: string): string {
    var rooted := |p| > 0 && p[0] == '/';
    var out := (if rooted then "/" else "") + JoinSegs(Fold([], Split(p), rooted));
    if out == "" then "." else out
  }

  /** The buffer `path.Join` builds: empty elements are skipped until the
      first non-empty one, and every later element is preceded by a slash. */
  function JoinBuffer(buf: string, elems: seq<string>): string
    decreases |elems|
  {
    if elems == [] then buf
    else if buf == [] && elems[0] == [] then JoinBuffer(buf, elems[1..])
    else JoinBuffer(if buf == [] then elems[0] else buf + "/" + elems[0], elems[1..])
  }

  /** `path.Join(elems...)`: "" when every element is empty, otherwise the
      cleaned join. */
  function Join(elems: seq<string>): string {
    var buf := JoinBuffer([], elems);
    if buf == [] then [] else Clean(buf)
  }

  /** Plain segments survive cleaning in order. */
  lemma {:induction false} FoldOfPlain(stack: seq<string>, segs: seq<string>, rooted: bool)
    requires forall i :: 0 <= i < |segs| ==> Plain(segs[i])
    ensures Fold(stack, segs, rooted) == stack + segs
    decreases |segs|
  {
    if segs != [] {
      FoldOfPlain(stack + [segs[0]], segs[1..], rooted);
      assert stack + [segs[0]] + segs[1..] == stack + segs;
    }
  }

  /** A relative path of plain segments is already clean. */
  lemma CleanOfPlain(segs: seq<string>)
    requires |segs| >= 1 && forall i :: 0 <= i < |segs| ==> Plain(segs[i])
    ensures Clean(JoinSegs(segs)) == JoinSegs(segs)
  {
    SplitOfJoinSegs(segs);
    FoldOfPlain([], segs, false);
    var p := JoinSegs(segs);
    assert p == JoinSegs(Split(p));
    NotRooted(segs);
    assert [] + segs == segs;
  }

  lemma NotRooted(segs: seq<string>)
    requires |segs| >= 1 && Plain(segs[0])
    ensures |JoinSegs(segs)| > 0 && JoinSegs(segs)[0] != '/'
  {
    assert segs[0][0] != '/';
    if |segs| > 1 {
      assert JoinSegs(segs) == segs[0] + "/" + JoinSegs(segs[1..]);
    }
  }

  /** Joining plain segments puts a single slash between them. */
  lemma JoinOfPlain(segs: seq<string>)
    requires |segs| >= 1 && forall i :: 0 <= i < |segs| ==> Plain(segs[i])
    ensures Join(segs) == JoinSegs(segs)
  {
    JoinBufferOfPlain(segs);
    NotRooted(segs);
    CleanOfPlain(segs);
  }

  lemma {:induction false} JoinBufferOfPlain(segs: seq<string>)
    requires |segs| >= 1 && forall i :: 0 <= i < |segs| ==> Plain(segs[i])
    ensures JoinBuffer([], segs) == JoinSegs(segs)
  {
    JoinBufferFrom(segs[0], segs[1..]);
    assert JoinBuffer([], segs) == JoinBuffer(segs[0], segs[1..]);
    assert [segs[0]] + segs[1..] == segs;
  }

  lemma {:induction false} JoinBufferFrom(buf: string, segs: seq<string>)
    requires buf != [] && forall i :: 0 <= i < |segs| ==> Plain(segs[i])
    ensures JoinBuffer(buf, segs) == JoinSegs([buf] + segs)
    decreases |segs|
  {
    if segs != [] {
      JoinBufferFrom(buf + "/" + segs[0], segs[1..]);
      JoinSegsCons(buf, segs);
    }
  }

  /** Joining after a first segment is the same as putting it before a join. */
  lemma {:induction false} JoinSegsCons(a: string, segs: seq<string>)
    requires segs != []
    ensures JoinSegs([a] + segs) == a + "/" + JoinSegs(segs)
    ensures JoinSegs([a + "/" + segs[0]] + segs[1..]) == a + "/" + JoinSegs(segs)
    decreases |segs|
  {
    assert ([a] + segs)[1..] == segs;
    if |segs| > 1 {
      assert ([a + "/" + segs[0]] + segs[1..])[1..] == segs[1..];
      assert JoinSegs(segs) == segs[0] + "/" + JoinSegs(segs[1..]);
    } else {
      assert [a + "/" + segs[0]] + segs[1..] == [a + "/" + segs[0]];
    }
  }
}

/** Request paths: cutting off the query, splitting into segments, joining again. */
module Paths {
  /** How many leading characters differ from `c`: where find would stop. */
  function Until(s: string, c: char): (n: nat)
    ensures n <= |s| && (n < |s| ==> s[n] == c) && forall i :: 0 <= i < n ==> s[i] != c
  {
    if s == [] || s[0] == c then 0 else 1 + Until(s[1..], c)
  }

  lemma {:induction false} UntilUnique(s: string, c: char, n: nat)
    requires n <= |s| && (n < |s| ==> s[n] == c) && c !in s[..n]
    ensures Until(s, c) == n
  {
    if n > 0 {
      assert s[0] == s[..n][0] && s[1..][..n - 1] == s[..n][1..];
      UntilUnique(s[1..], c, n - 1);
    }
  }

  function StripQuery(path: string): string { path[..Until(path, '?')] }

  /** The longest runs without a slash. */
  function Segments(s: string): seq<string>
    decreases |s|
  {
    if s == [] then []
    else if s[0] == '/' then Segments(s[1..])
    else [s[..Until(s, '/')]] + Segments(s[Until(s, '/')..])
  }

  /** A segment that can stand in a path: not empty, and free of the characters with a meaning. */
  predicate Plain(seg: string) { seg != [] && '/' !in seg && '?' !in seg }

  predicate AllPlain(segs: seq<string>) { forall i :: 0 <= i < |segs| ==> Plain(segs[i]) }

  /** Every segment has its slash in front. */
  function PathOf(segs: seq<string>): string {
    if segs == [] then [] else ['/'] + segs[0] + PathOf(segs[1..])
  }


  function Tail(s: string, start: nat): string { if start <= |s| then s[start..] else [] }

  /** Moves past the slashes at `from`. */
  method SkipSlashes(s: string, from: nat) returns (start: nat)
    ensures start >= from && (start < |s| ==> s[start] != '/')
    ensures Segments(Tail(s, start)) == Segments(Tail(s, from))
  {
    start := from;
    while start < |s| && s[start] == '/'
      invariant start >= from && Segments(Tail(s, start)) == Segments(Tail(s, from))
    {
      assert s[start..][1..] == s[start + 1..];
      start := start + 1;
    }
  }

  /** split_path. */
  method SplitPath(path: string) returns (segments: seq<string>)
    ensures segments == Segments(StripQuery(path))
  {
    var clean := StripQuery(path);
    segments := [];
    var start := SkipSlashes(clean, 0);
    while start < |clean|
      invariant start < |clean| ==> clean[start] != '/'
      invariant segments + Segments(Tail(clean, start)) == Segments(Tail(clean, 0))
      decreases |clean| - start
    {
      var end := start + Until(clean[start..], '/');
      SegmentsFrom(clean, start, end);
      Regroup(segments, clean[start..end], Segments(clean[end..]));
      if end > start { segments := segments + [clean[start..end]]; }
      start := SkipSlashes(clean, end + 1);
    }
    assert Tail(clean, 0) == clean;
  }

  lemma Regroup(done: seq<string>, x: string, rest: seq<string>)
    ensures done + ([x] + rest) == done + [x] + rest
  {
  }

  lemma SegmentsFrom(s: string, start: nat, end: nat)
    requires start < |s| && s[start] != '/' && end == start + Until(s[start..], '/')
    ensures start < end <= |s| && Segments(s[start..]) == [s[start..end]] + Segments(s[end..])
    ensures Segments(s[end..]) == Segments(Tail(s, end + 1))
  {
    var t := s[start..];
    assert t[..end - start] == s[start..end] && t[end - start..] == s[end..];
    if end < |s| { assert s[end..][0] == '/' && s[end..][1..] == s[end + 1..]; }
  }

  // Round trips

  /** Segments put behind one another split again into themselves. */
  lemma {:induction false} SplitOfPath(segs: seq<string>)
    requires AllPlain(segs)
    ensures Segments(PathOf(segs)) == segs
  {
    if segs != [] {
      assert AllPlain(segs[1..]);
      SplitOfPath(segs[1..]);
      var s := segs[0] + PathOf(segs[1..]);
      assert PathOf(segs) == ['/'] + s && PathOf(segs)[1..] == s;
      SplitFirst(segs[0], PathOf(segs[1..]));
    }
  }

  lemma SplitFirst(seg: string, rest: string)
    requires Plain(seg) && (rest != [] ==> rest[0] == '/')
    ensures Segments(seg + rest) == [seg] + Segments(rest)
  {
    var s := seg + rest;
    assert s[..|seg|] == seg && s[|seg|..] == rest;
    UntilUnique(s, '/', |seg|);
  }

  lemma {:induction false} PathHasNoQuery(segs: seq<string>)
    requires AllPlain(segs)
    ensures '?' !in PathOf(segs) && StripQuery(PathOf(segs)) == PathOf(segs)
  {
    if segs != [] {
      assert AllPlain(segs[1..]);
      PathHasNoQuery(segs[1..]);
    }
    UntilUnique(PathOf(segs), '?', |PathOf(segs)|);
  }

  /** What splitting gives can always be put in a path again. */
  lemma {:induction false} SegmentsPlain(s: string)
    requires '?' !in s
    ensures AllPlain(Segments(s))
    decreases |s|
  {
    if s != [] {
      if s[0] == '/' {
        SegmentsPlain(s[1..]);
      } else {
        SegmentsPlain(s[Until(s, '/')..]);
      }
    }
  }

  lemma StrippedHasNoQuery(path: string)
    ensures '?' !in StripQuery(path)
  {
  }

  // join_path_segments

  function JoinInto(out: string, segs: seq<string>): string
    decreases |segs|
  {
    if segs == [] then out else JoinInto((if out == [] then [] else out + ['/']) + segs[0], segs[1..])
  }

  method JoinPathSegments(segments: seq<string>, from: nat) returns (out: string)
    ensures out == if from < |segments| then JoinInto([], segments[from..]) else []
  {
    out := [];
    var i := from;
    while i < |segments|
      invariant i <= |segments| || i == from
      invariant (if i < |segments| then JoinInto(out, segments[i..]) else out) ==
                if from < |segments| then JoinInto([], segments[from..]) else []
    {
      assert segments[i..][1..] == segments[i + 1..];
      if out != [] { out := out + ['/']; }
      out := out + segments[i];
      i := i + 1;
    }
  }

  lemma {:induction false} JoinIsPath(out: string, segs: seq<string>)
    requires out != []
    ensures JoinInto(out, segs) == out + PathOf(segs)
    decreases |segs|
  {
    if segs != [] {
      JoinIsPath(out + ['/'] + segs[0], segs[1..]);
      assert out + ['/'] + segs[0] + PathOf(segs[1..]) == out + PathOf(segs);
    }
  }

  /** A joined rest of a path splits into the same segments. */
  lemma JoinSplits(segs: seq<string>)
    requires AllPlain(segs)
    ensures Segments(StripQuery(JoinInto([], segs))) == segs
  {
    if segs == [] {
      assert JoinInto([], segs) == [];
    } else {
      var s := segs[0] + PathOf(segs[1..]);
      assert AllPlain(segs[1..]);
      assert JoinInto([], segs) == s by {
        assert [] + segs[0] == segs[0];
        JoinIsPath(segs[0], segs[1..]);
      }
      assert StripQuery(s) == s by {
        PathHasNoQuery(segs[1..]);
        UntilUnique(s, '?', |s|);
      }
      SplitFirst(segs[0], PathOf(segs[1..]));
      SplitOfPath(segs[1..]);
    }
  }
}

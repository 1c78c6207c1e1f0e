/** The HTTP router: routes compiled on registration, matched segment by segment on dispatch. */
module RouteSpec {
  import opened Prelude
  import opened Paths
  import opened HttpTypes

  /** A route with parameters; `handler` names the function to call. */
  datatype Route = Route(verb: Option<Method>, segments: seq<string>, wildcard: Option<string>, handler: nat)

  predicate IsParam(p: string) { p != [] && p[0] == ':' }
  predicate IsWild(p: string) { p != [] && p[0] == '*' }

  function WildName(p: string): string
    requires IsWild(p)
  {
    if |p| > 1 then p[1..] else "wildcard"
  }

  /** The pattern up to its first wildcard. */
  function Fixed(segs: seq<string>): seq<string> {
    if segs == [] || IsWild(segs[0]) then [] else [segs[0]] + Fixed(segs[1..])
  }

  function Wild(segs: seq<string>): Option<string> {
    if segs == [] then None else if IsWild(segs[0]) then Some(WildName(segs[0])) else Wild(segs[1..])
  }

  /** The parameters are kept from the first segment that names them. */
  function Emplace(m: map<string, string>, name: string, value: string): map<string, string> {
    if name in m then m else m[name := value]
  }

  function Bind(pats: seq<string>, acts: seq<string>, m: map<string, string>): Option<map<string, string>>
    requires |pats| <= |acts|
  {
    if pats == [] then Some(m)
    else if IsParam(pats[0]) then
      if |pats[0]| <= 1 then None else Bind(pats[1..], acts[1..], Emplace(m, pats[0][1..], acts[0]))
    else if pats[0] != acts[0] then None
    else Bind(pats[1..], acts[1..], m)
  }

  /** match_dynamic_route: the parameters of a match. */
  function Match(r: Route, verb: Method, path: string): Option<map<string, string>> {
    var acts := Segments(StripQuery(path));
    if r.verb.Some? && r.verb.value != verb then None
    else if r.wildcard.None? && |acts| != |r.segments| then None
    else if |acts| < |r.segments| then None
    else
      match Bind(r.segments, acts, map[])
      case None => None
      case Some(m) =>
        if r.wildcard.None? then Some(m)
        else Some(Emplace(m, r.wildcard.value, JoinInto([], acts[|r.segments|..])))
  }

  // When a pattern matches, and what it binds

  /** Every parameter has a name and every other segment is literally there. */
  predicate Fits(pats: seq<string>, acts: seq<string>)
    requires |pats| <= |acts|
  {
    forall i :: 0 <= i < |pats| ==> if IsParam(pats[i]) then |pats[i]| > 1 else pats[i] == acts[i]
  }

  /** Segment `k` is the first that names parameter `n`. */
  predicate FirstNamed(pats: seq<string>, k: nat, n: string) {
    k < |pats| && pats[k] == [':'] + n && forall i :: 0 <= i < k ==> pats[i] != [':'] + n
  }

  lemma {:induction false} BindIff(pats: seq<string>, acts: seq<string>, m: map<string, string>)
    requires |pats| <= |acts|
    ensures Bind(pats, acts, m).Some? <==> Fits(pats, acts)
  {
    if pats != [] {
      var more, tail := pats[1..], acts[1..];
      assert Fits(pats, acts) <==>
             (if IsParam(pats[0]) then |pats[0]| > 1 else pats[0] == acts[0]) && Fits(more, tail) by {
        if Fits(pats, acts) {
          forall i | 0 <= i < |more| ensures if IsParam(more[i]) then |more[i]| > 1 else more[i] == tail[i] {
            assert more[i] == pats[i + 1] && tail[i] == acts[i + 1];
          }
        }
      }
      BindIff(more, tail, if IsParam(pats[0]) && |pats[0]| > 1 then Emplace(m, pats[0][1..], acts[0]) else m);
    }
  }

  /** A parameter that occurs several times has the value of its first occurrence. */
  lemma {:induction false} BindsFirst(pats: seq<string>, acts: seq<string>, m: map<string, string>, k: nat, n: string)
    requires |pats| <= |acts| && Bind(pats, acts, m).Some?
    ensures n in m ==> n in Bind(pats, acts, m).value && Bind(pats, acts, m).value[n] == m[n]
    ensures n !in m && FirstNamed(pats, k, n) ==>
              n in Bind(pats, acts, m).value && Bind(pats, acts, m).value[n] == acts[k]
    decreases |pats|
  {
    if pats != [] {
      var next := if IsParam(pats[0]) then Emplace(m, pats[0][1..], acts[0]) else m;
      BindsFirst(pats[1..], acts[1..], next, if k > 0 then k - 1 else 0, n);
      if FirstNamed(pats, k, n) {
        assert ([':'] + n)[1..] == n;
        if k > 0 {
          assert pats[0] != [':'] + n && (IsParam(pats[0]) ==> pats[0] == [':'] + pats[0][1..]);
          assert FirstNamed(pats[1..], k - 1, n);
        }
      }
    }
  }

  /** A route matches exactly when method, number of segments and literal segments agree, and no name is missing. */
  lemma MatchIff(r: Route, verb: Method, path: string)
    ensures var acts := Segments(StripQuery(path));
            Match(r, verb, path).Some? <==>
            && (r.verb.Some? ==> r.verb.value == verb)
            && (if r.wildcard.Some? then |acts| >= |r.segments| else |acts| == |r.segments|)
            && Fits(r.segments, acts)
  {
    var acts := Segments(StripQuery(path));
    if |r.segments| <= |acts| { BindIff(r.segments, acts, map[]); }
  }

  /** Compiling keeps the segments before the first that starts with `*`, and the name that follows it. */
  lemma {:induction false} CompiledAt(segs: seq<string>, k: nat)
    requires k <= |segs| && (k < |segs| ==> IsWild(segs[k])) && forall i :: 0 <= i < k ==> !IsWild(segs[i])
    ensures Fixed(segs) == segs[..k]
    ensures Wild(segs) == if k == |segs| then None else if segs[k] == "*" then Some("wildcard") else Some(segs[k][1..])
  {
    if k > 0 {
      assert !IsWild(segs[0]);
      CompiledAt(segs[1..], k - 1);
    }
  }

  // Instantiating a pattern

  function Names(pats: seq<string>): set<string> {
    if pats == [] then {} else (if IsParam(pats[0]) then {pats[0][1..]} else {}) + Names(pats[1..])
  }

  /** No name twice, and none empty. */
  predicate Proper(pats: seq<string>) {
    pats != [] ==>
      && (IsParam(pats[0]) ==> |pats[0]| > 1 && pats[0][1..] !in Names(pats[1..]))
      && Proper(pats[1..])
  }

  /** The pattern with a value in place of each parameter. */
  function Fill(pats: seq<string>, vals: map<string, string>): (r: seq<string>)
    requires Names(pats) <= vals.Keys
    ensures |r| == |pats|
  {
    if pats == [] then []
    else [if IsParam(pats[0]) then vals[pats[0][1..]] else pats[0]] + Fill(pats[1..], vals)
  }

  function Given(pats: seq<string>, vals: map<string, string>): map<string, string>
    requires Names(pats) <= vals.Keys
  {
    map n | n in Names(pats) :: vals[n]
  }

  /** A filled pattern binds to the values that filled it. */
  lemma {:induction false} BindFilled(
    pats: seq<string>, vals: map<string, string>, rest: seq<string>, m: map<string, string>)
    requires Proper(pats) && Names(pats) <= vals.Keys && Names(pats) !! m.Keys
    ensures Bind(pats, Fill(pats, vals) + rest, m) == Some(m + Given(pats, vals))
  {
    if pats == [] {
      assert m + Given(pats, vals) == m;
    } else {
      var acts := Fill(pats, vals) + rest;
      assert acts[1..] == Fill(pats[1..], vals) + rest;
      GivenOneMore(pats, vals, m);
      var n := if IsParam(pats[0]) then m[pats[0][1..] := acts[0]] else m;
      assert Bind(pats, acts, m) == Bind(pats[1..], acts[1..], n);
      BindFilled(pats[1..], vals, rest, n);
    }
  }

  lemma GivenOneMore(pats: seq<string>, vals: map<string, string>, m: map<string, string>)
    requires pats != [] && Proper(pats) && Names(pats) <= vals.Keys
    ensures m + Given(pats, vals) ==
            if IsParam(pats[0]) then m[pats[0][1..] := vals[pats[0][1..]]] + Given(pats[1..], vals)
            else m + Given(pats[1..], vals)
  {
  }

  /** What binds is the pattern filled with the parameters it gives. */
  lemma {:induction false} BoundIsFilled(pats: seq<string>, acts: seq<string>, m: map<string, string>)
    requires |pats| <= |acts| && Proper(pats) && Names(pats) !! m.Keys && Bind(pats, acts, m).Some?
    ensures var r := Bind(pats, acts, m).value;
            && r.Keys == m.Keys + Names(pats) && (forall n :: n in m ==> r[n] == m[n])
            && acts == Fill(pats, r) + acts[|pats|..]
  {
    if pats != [] {
      assert acts[1..][|pats| - 1..] == acts[|pats|..];
      var n := if IsParam(pats[0]) then m[pats[0][1..] := acts[0]] else m;
      BoundIsFilled(pats[1..], acts[1..], n);
      FilledFirst(pats, acts, Bind(pats, acts, m).value);
    }
  }

  lemma FilledFirst(pats: seq<string>, acts: seq<string>, r: map<string, string>)
    requires 1 <= |pats| <= |acts| && Names(pats) <= r.Keys
    requires acts[0] == if IsParam(pats[0]) then r[pats[0][1..]] else pats[0]
    requires acts[1..] == Fill(pats[1..], r) + acts[|pats|..]
    ensures acts == Fill(pats, r) + acts[|pats|..]
  {
    assert acts == [acts[0]] + acts[1..];
  }

  lemma {:induction false} FillPlain(pats: seq<string>, vals: map<string, string>)
    requires AllPlain(pats) && Names(pats) <= vals.Keys && forall n :: n in Names(pats) ==> Plain(vals[n])
    ensures AllPlain(Fill(pats, vals))
  {
    if pats != [] {
      assert Plain(pats[0]) && AllPlain(pats[1..]);
      FillPlain(pats[1..], vals);
    }
  }

  predicate Accepts(r: Route, verb: Method) { r.verb.None? || r.verb.value == verb }

  /** The parameters that a match gives. */
  function Params(r: Route, vals: map<string, string>, rest: seq<string>): map<string, string>
    requires Names(r.segments) <= vals.Keys
  {
    var m := Given(r.segments, vals);
    if r.wildcard.None? then m else Emplace(m, r.wildcard.value, JoinInto([], rest))
  }

  /** The path made from a pattern matches it, and gives back exactly the values it was made with. */
  lemma RoundTrip(r: Route, verb: Method, vals: map<string, string>, rest: seq<string>)
    requires Proper(r.segments) && AllPlain(r.segments) && Accepts(r, verb)
    requires Names(r.segments) <= vals.Keys && forall n :: n in Names(r.segments) ==> Plain(vals[n])
    requires AllPlain(rest) && (r.wildcard.None? ==> rest == [])
    ensures Match(r, verb, PathOf(Fill(r.segments, vals) + rest)) == Some(Params(r, vals, rest))
  {
    var filled := Fill(r.segments, vals);
    var acts := filled + rest;
    FillPlain(r.segments, vals);
    SplitOfPath(acts);
    PathHasNoQuery(acts);
    BindFilled(r.segments, vals, rest, map[]);
    assert map[] + Given(r.segments, vals) == Given(r.segments, vals);
    assert acts[|r.segments|..] == rest;
  }

  /** What the wildcard captured splits into the segments that were left. */
  lemma WildcardSplits(r: Route, vals: map<string, string>, rest: seq<string>)
    requires Names(r.segments) <= vals.Keys && AllPlain(rest)
    requires r.wildcard.Some? && r.wildcard.value !in Names(r.segments)
    ensures Segments(StripQuery(Params(r, vals, rest)[r.wildcard.value])) == rest
  {
    JoinSplits(rest);
  }

  lemma {:induction false} FillAgrees(pats: seq<string>, m: map<string, string>, n: map<string, string>)
    requires Names(pats) <= m.Keys && Names(pats) <= n.Keys && forall k :: k in Names(pats) ==> m[k] == n[k]
    ensures Fill(pats, m) == Fill(pats, n)
  {
    if pats != [] { FillAgrees(pats[1..], m, n); }
  }

  /** Conversely, whatever matches is the pattern filled with the parameters that the match gave. */
  lemma MatchIsFilled(r: Route, verb: Method, path: string)
    requires Proper(r.segments) && Match(r, verb, path).Some?
    ensures var acts, m := Segments(StripQuery(path)), Match(r, verb, path).value;
            && Accepts(r, verb) && |acts| >= |r.segments| && (r.wildcard.None? ==> |acts| == |r.segments|)
            && Names(r.segments) <= m.Keys
            && acts == Fill(r.segments, m) + acts[|r.segments|..]
            && m == Params(r, m, acts[|r.segments|..])
  {
    var acts, m := Segments(StripQuery(path)), Match(r, verb, path).value;
    BoundIsFilled(r.segments, acts, map[]);
    var b := Bind(r.segments, acts, map[]).value;
    FillAgrees(r.segments, b, m);
    assert b == Given(r.segments, m);
  }

  /** A parameter without a name can never match. */
  lemma {:induction false} NamelessNever(pats: seq<string>, acts: seq<string>, m: map<string, string>)
    requires |pats| <= |acts| && [':'] in pats
    ensures Bind(pats, acts, m) == None
  {
    if pats[0] != [':'] {
      if IsParam(pats[0]) {
        NamelessNever(pats[1..], acts[1..], Emplace(m, pats[0][1..], acts[0]));
      } else if pats[0] == acts[0] {
        NamelessNever(pats[1..], acts[1..], m);
      }
    }
  }

  /** The segments of a registered pattern can stand in a path. */
  lemma {:induction false} FixedPlain(segs: seq<string>)
    requires AllPlain(segs)
    ensures AllPlain(Fixed(segs))
  {
    if segs != [] && !IsWild(segs[0]) {
      assert AllPlain(segs[1..]);
      FixedPlain(segs[1..]);
    }
  }

  lemma CompiledPlain(path: string)
    ensures AllPlain(Fixed(Segments(StripQuery(path))))
  {
    StrippedHasNoQuery(path);
    SegmentsPlain(StripQuery(path));
    FixedPlain(Segments(StripQuery(path)));
  }
}

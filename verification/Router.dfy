/** The router's tables, filled by registration and read by dispatch. */
module Routers {
  import opened Prelude
  import opened Paths
  import opened HttpTypes
  import opened RouteSpec
  import opened DispatchSpec

  class Router {
    var routes: map<(Method, string), nat>
    var anyRoutes: map<string, nat>
    var dynamics: seq<Route>
    var middlewares: seq<nat>
    var fallback: Option<nat>
    var errorHandler: Option<nat>

    function View(): Table
      reads this
    {
      Table(routes, anyRoutes, dynamics, middlewares, fallback, errorHandler)
    }

    constructor ()
      ensures View() == Table(map[], map[], [], [], None, None)
    {
      routes, anyRoutes, dynamics := map[], map[], [];
      middlewares, fallback, errorHandler := [], None, None;
    }

    method RegisterRoute(verb: Option<Method>, path: string, handler: nat)
      modifies this
      ensures View() == Register(old(View()), verb, path, handler)
    {
      var clean := StripQuery(path);
      if !IsDynamic(clean) {
        if verb.Some? {
          routes := routes[(verb.value, clean) := handler];
        } else {
          anyRoutes := anyRoutes[clean := handler];
        }
        return;
      }
      StripTwice(path);
      var segments := SplitPath(clean);
      var fixed, wild := Compile(segments);
      dynamics := dynamics + [Route(verb, fixed, wild, handler)];
    }

    /** dispatch_dynamic: the handler and the parameters of the first route that matches. */
    method DispatchDynamic(verb: Method, path: string) returns (r: Option<(nat, map<string, string>)>)
      ensures r.None? <==> forall i :: 0 <= i < |dynamics| ==> Match(dynamics[i], verb, path).None?
      ensures r.Some? ==>
                exists i :: 0 <= i < |dynamics| && Match(dynamics[i], verb, path) == Some(r.value.1)
                            && dynamics[i].handler == r.value.0
                            && forall j :: 0 <= j < i ==> Match(dynamics[j], verb, path).None?
    {
      for i := 0 to |dynamics|
        invariant forall j :: 0 <= j < i ==> Match(dynamics[j], verb, path).None?
      {
        var m := MatchDynamicRoute(dynamics[i], verb, path);
        if m.Some? { return Some((dynamics[i].handler, m.value)); }
      }
      r := None;
    }

    method Dispatch(verb: Method, path: string, w: World) returns (o: Outcome)
      ensures o == if FastPath(View()) then Fast(View(), w, verb, path) else General(View(), w, verb, path)
    {
      var clean := StripQuery(path);
      if middlewares == [] && dynamics == [] && errorHandler.None? {
        if (verb, clean) in routes { return w.run(routes[(verb, clean)], map[]); }
        if clean in anyRoutes { return w.run(anyRoutes[clean], map[]); }
        if fallback.Some? { return w.run(fallback.value, map[]); }
        return Response(NOT_FOUND);
      }
      for i := 0 to |middlewares|
        invariant Screened(View(), w, 0) == Screened(View(), w, i)
      {
        var verdict := w.screen(middlewares[i]);
        if verdict.Respond? { return Response(verdict.id); }
        if verdict.Fails? { return Recover(View(), w); }
      }
      o := DispatchRoutes(verb, path, w);
    }

    method DispatchRoutes(verb: Method, path: string, w: World) returns (o: Outcome)
      requires Screened(View(), w, 0).None?
      ensures o == General(View(), w, verb, path)
    {
      var chosen := Choose(verb, path);
      if chosen.None? { return Response(NOT_FOUND); }
      return Safe(View(), w, w.run(chosen.value.0, chosen.value.1));
    }

    method Choose(verb: Method, path: string) returns (r: Option<(nat, map<string, string>)>)
      ensures r == Chosen(View(), verb, path)
    {
      var clean := StripQuery(path);
      if (verb, clean) in routes { return Some((routes[(verb, clean)], map[])); }
      if clean in anyRoutes { return Some((anyRoutes[clean], map[])); }
      r := DispatchDynamic(verb, path);
      if r.Some? {
        ghost var i :| 0 <= i < |dynamics| && Match(dynamics[i], verb, path) == Some(r.value.1)
                 && dynamics[i].handler == r.value.0
                 && forall j :: 0 <= j < i ==> Match(dynamics[j], verb, path).None?;
        FirstIs(dynamics, verb, path, i);
        return;
      }
      FirstIs(dynamics, verb, path, |dynamics|);
      if fallback.Some? { return Some((fallback.value, map[])); }
      return None;
    }
  }

  lemma StripTwice(path: string)
    ensures StripQuery(StripQuery(path)) == StripQuery(path)
  {
    UntilUnique(StripQuery(path), '?', |StripQuery(path)|);
  }

  /** The loop of register_route over the segments of a pattern. */
  method Compile(segments: seq<string>) returns (fixed: seq<string>, wild: Option<string>)
    ensures fixed == Fixed(segments) && wild == Wild(segments)
  {
    fixed, wild := [], None;
    var i := 0;
    while i < |segments|
      invariant i <= |segments| && wild == None
      invariant fixed + Fixed(segments[i..]) == Fixed(segments) && Wild(segments[i..]) == Wild(segments)
    {
      var segment := segments[i];
      if IsWild(segment) {
        wild := Some(if |segment| > 1 then segment[1..] else "wildcard");
        return;
      }
      assert segments[i..][1..] == segments[i + 1..];
      assert fixed + ([segment] + Fixed(segments[i + 1..])) == fixed + [segment] + Fixed(segments[i + 1..]);
      fixed := fixed + [segment];
      i := i + 1;
    }
  }

  method MatchDynamicRoute(route: Route, verb: Method, path: string) returns (r: Option<map<string, string>>)
    ensures r == Match(route, verb, path)
  {
    if route.verb.Some? && route.verb.value != verb { return None; }
    var acts := SplitPath(path);
    if route.wildcard.None? && |acts| != |route.segments| { return None; }
    if route.wildcard.Some? && |acts| < |route.segments| { return None; }
    var params := BindSegments(route.segments, acts);
    if params.None? { return None; }
    if route.wildcard.Some? {
      var rest := JoinPathSegments(acts, |route.segments|);
      return Some(Emplace(params.value, route.wildcard.value, rest));
    }
    r := params;
  }

  /** The loop of match_dynamic_route over the segments. */
  method BindSegments(pats: seq<string>, acts: seq<string>) returns (r: Option<map<string, string>>)
    requires |pats| <= |acts|
    ensures r == Bind(pats, acts, map[])
  {
    var params: map<string, string> := map[];
    for i := 0 to |pats|
      invariant Bind(pats[i..], acts[i..], params) == Bind(pats, acts, map[])
    {
      assert pats[i..][1..] == pats[i + 1..] && acts[i..][1..] == acts[i + 1..];
      if IsParam(pats[i]) {
        if |pats[i]| <= 1 { return None; }
        params := Emplace(params, pats[i][1..], acts[i]);
      } else if pats[i] != acts[i] {
        return None;
      }
    }
    r := Some(params);
  }
}

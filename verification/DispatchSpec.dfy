/** Which handler answers a request. */
module DispatchSpec {
  import opened Prelude
  import opened Paths
  import opened HttpTypes
  import opened RouteSpec

  /** Handlers, middlewares and error handlers are named; what they do is the world's business. */
  datatype Table = Table(
    routes: map<(Method, string), nat>, anyRoutes: map<string, nat>, dynamics: seq<Route>,
    middlewares: seq<nat>, fallback: Option<nat>, errorHandler: Option<nat>)

  datatype Outcome = Response(id: nat) | Throws
  datatype Verdict = Pass | Respond(id: nat) | Fails

  datatype World = World(
    run: (nat, map<string, string>) -> Outcome, screen: nat -> Verdict, onError: nat -> Outcome)

  const NOT_FOUND: nat := 404
  const INTERNAL_ERROR: nat := 500

  /** What becomes of an exception. */
  function Recover(t: Table, w: World): Outcome {
    if t.errorHandler.Some? then w.onError(t.errorHandler.value) else Response(INTERNAL_ERROR)
  }

  function Safe(t: Table, w: World, o: Outcome): Outcome { if o.Throws? then Recover(t, w) else o }

  /** The first dynamic route that matches: its place, or the number of routes. */
  function First(dynamics: seq<Route>, verb: Method, path: string): (n: nat)
    ensures n <= |dynamics| && (n < |dynamics| ==> Match(dynamics[n], verb, path).Some?)
    ensures forall i :: 0 <= i < n ==> Match(dynamics[i], verb, path).None?
  {
    if dynamics == [] || Match(dynamics[0], verb, path).Some? then 0 else 1 + First(dynamics[1..], verb, path)
  }

  lemma {:induction false} FirstIs(dynamics: seq<Route>, verb: Method, path: string, n: nat)
    requires n <= |dynamics| && (n < |dynamics| ==> Match(dynamics[n], verb, path).Some?)
    requires forall i :: 0 <= i < n ==> Match(dynamics[i], verb, path).None?
    ensures First(dynamics, verb, path) == n
  {
    if n > 0 {
      assert Match(dynamics[0], verb, path).None?;
      FirstIs(dynamics[1..], verb, path, n - 1);
    }
  }

  /** The handler and its parameters: exact path, exact path for any method, first dynamic route, fallback. */
  function Chosen(t: Table, verb: Method, path: string): Option<(nat, map<string, string>)> {
    var clean, n := StripQuery(path), First(t.dynamics, verb, path);
    if (verb, clean) in t.routes then Some((t.routes[(verb, clean)], map[]))
    else if clean in t.anyRoutes then Some((t.anyRoutes[clean], map[]))
    else if n < |t.dynamics| then Some((t.dynamics[n].handler, Match(t.dynamics[n], verb, path).value))
    else if t.fallback.Some? then Some((t.fallback.value, map[]))
    else None
  }

  /** The answer of the first middleware that does not pass. */
  function Screened(t: Table, w: World, n: nat): Option<Outcome>
    requires n <= |t.middlewares|
    decreases |t.middlewares| - n
  {
    if n == |t.middlewares| then None
    else
      match w.screen(t.middlewares[n])
      case Pass => Screened(t, w, n + 1)
      case Respond(id) => Some(Response(id))
      case Fails => Some(Recover(t, w))
  }

  function General(t: Table, w: World, verb: Method, path: string): Outcome {
    match Screened(t, w, 0)
    case Some(o) => o
    case None =>
      match Chosen(t, verb, path)
      case Some((h, params)) => Safe(t, w, w.run(h, params))
      case None => Response(NOT_FOUND)
  }

  // What middlewares do to a request

  /** Middlewares before `n` pass; the one at `n`, if there is one, does not. */
  predicate Stops(t: Table, w: World, n: nat) {
    && n <= |t.middlewares| && (forall i :: 0 <= i < n ==> w.screen(t.middlewares[i]) == Pass)
    && (n < |t.middlewares| ==> w.screen(t.middlewares[n]) != Pass)
  }

  lemma {:induction false} FirstStop(t: Table, w: World, n: nat) returns (m: nat)
    requires n <= |t.middlewares| && forall i :: 0 <= i < n ==> w.screen(t.middlewares[i]) == Pass
    ensures Stops(t, w, m)
    decreases |t.middlewares| - n
  {
    m := n;
    if n < |t.middlewares| && w.screen(t.middlewares[n]) == Pass { m := FirstStop(t, w, n + 1); }
  }

  lemma {:induction false} ScreenedAt(t: Table, w: World, k: nat, n: nat)
    requires Stops(t, w, n) && k <= n
    ensures Screened(t, w, k) == Screened(t, w, n)
    decreases n - k
  {
    if k < n {
      assert w.screen(t.middlewares[k]) == Pass;
      ScreenedAt(t, w, k + 1, n);
    }
  }

  /**
   * The first middleware that does not pass answers, whatever the routes and the handlers are: with its own
   * response, or, if it fails, with what the error handler gives, or 500 without one.
   */
  lemma FirstMiddlewareAnswers(t: Table, w: World, verb: Method, path: string, n: nat)
    requires Stops(t, w, n) && n < |t.middlewares|
    ensures var v := w.screen(t.middlewares[n]);
            General(t, w, verb, path) ==
            if v.Respond? then Response(v.id)
            else if t.errorHandler.Some? then w.onError(t.errorHandler.value) else Response(INTERNAL_ERROR)
    ensures forall run :: General(t, w.(run := run), verb, path) == General(t, w, verb, path)
  {
    ScreenedAt(t, w, 0, n);
    forall run ensures General(t, w.(run := run), verb, path) == General(t, w, verb, path) {
      ScreenedAt(t, w.(run := run), 0, n);
    }
  }

  /** When all pass, the request is answered as it would be without them. */
  lemma PassedOn(t: Table, w: World, verb: Method, path: string)
    requires Stops(t, w, |t.middlewares|)
    ensures General(t, w, verb, path) == General(t.(middlewares := []), w, verb, path)
  {
    ScreenedAt(t, w, 0, |t.middlewares|);
  }

  /** Without middlewares a request gets the chosen handler's response, the recovery from its exception, or 404. */
  lemma HandlerAnswers(t: Table, w: World, verb: Method, path: string)
    requires t.middlewares == []
    ensures var o, chosen := General(t, w, verb, path), Chosen(t, verb, path);
            && (chosen.None? ==> o == Response(404))
            && (chosen.Some? ==>
                  var r := w.run(chosen.value.0, chosen.value.1);
                  o == if r.Response? then r
                       else if t.errorHandler.Some? then w.onError(t.errorHandler.value) else Response(500))
  {
  }

  /**
   * The order of the tables: the exact path for the method; only if there is none, the exact path for any
   * method; only then a dynamic route; and the fallback only if none of them is there.
   */
  lemma ChosenInOrder(t: Table, verb: Method, path: string)
    ensures var clean, c := StripQuery(path), Chosen(t, verb, path);
            var exact, any := (verb, clean) in t.routes, clean in t.anyRoutes;
            var dynamic := exists i :: 0 <= i < |t.dynamics| && Match(t.dynamics[i], verb, path).Some?;
            && (exact ==> c == Some((t.routes[(verb, clean)], map[])))
            && (!exact && any ==> c == Some((t.anyRoutes[clean], map[])))
            && (!exact && !any && dynamic ==>
                  exists i :: 0 <= i < |t.dynamics| && Match(t.dynamics[i], verb, path).Some?
                              && (forall j :: 0 <= j < i ==> Match(t.dynamics[j], verb, path).None?)
                              && c == Some((t.dynamics[i].handler, Match(t.dynamics[i], verb, path).value)))
            && (!exact && !any && !dynamic ==>
                  c == if t.fallback.Some? then Some((t.fallback.value, map[])) else None)
  {
    var n := First(t.dynamics, verb, path);
    if n < |t.dynamics| { assert Match(t.dynamics[n], verb, path).Some?; }
  }

  lemma QueryStripped(path: string, query: string)
    requires '?' !in path
    ensures StripQuery(path + ['?'] + query) == StripQuery(path) == path
  {
    var asked := path + ['?'] + query;
    assert asked[..|path|] == path && path[..|path|] == path;
    UntilUnique(asked, '?', |path|);
    UntilUnique(path, '?', |path|);
  }

  lemma {:induction false} FirstSame(dynamics: seq<Route>, verb: Method, path: string, at: string)
    requires StripQuery(path) == StripQuery(at)
    ensures First(dynamics, verb, path) == First(dynamics, verb, at)
  {
    if dynamics != [] { FirstSame(dynamics[1..], verb, path, at); }
  }

  /** The query takes no part in dispatch. */
  lemma QueryIgnored(t: Table, w: World, verb: Method, path: string, query: string)
    requires '?' !in path
    ensures Chosen(t, verb, path + ['?'] + query) == Chosen(t, verb, path)
    ensures General(t, w, verb, path + ['?'] + query) == General(t, w, verb, path)
    ensures Fast(t, w, verb, path + ['?'] + query) == Fast(t, w, verb, path)
  {
    QueryStripped(path, query);
    FirstSame(t.dynamics, verb, path + ['?'] + query, path);
  }

  predicate FastPath(t: Table) { t.middlewares == [] && t.dynamics == [] && t.errorHandler.None? }

  /** The fast path calls the handler without catching what it throws. */
  function Fast(t: Table, w: World, verb: Method, path: string): Outcome {
    var clean := StripQuery(path);
    if (verb, clean) in t.routes then w.run(t.routes[(verb, clean)], map[])
    else if clean in t.anyRoutes then w.run(t.anyRoutes[clean], map[])
    else if t.fallback.Some? then w.run(t.fallback.value, map[])
    else Response(NOT_FOUND)
  }

  /** Anything that could catch an exception or see the request before its handler keeps it off the fast path. */
  lemma FastOnly(t: Table)
    requires FastPath(t)
    ensures t.middlewares == [] && t.dynamics == [] && t.errorHandler.None?
  {
  }

  /** Where the fast path is taken it answers as the general one would, exactly when no handler throws. */
  lemma FastAgrees(t: Table, w: World, verb: Method, path: string)
    requires t.middlewares == [] && t.dynamics == [] && t.errorHandler.None?
    ensures FastPath(t)
    ensures Fast(t, w, verb, path) == General(t, w, verb, path) <==>
            !(Chosen(t, verb, path).Some? && w.run(Chosen(t, verb, path).value.0, map[]).Throws?)
    ensures Fast(t, w, verb, path).Throws? ==> General(t, w, verb, path) == Response(INTERNAL_ERROR)
  {
  }

  predicate IsDynamic(path: string) { ':' in path || '*' in path }

  function Register(t: Table, verb: Option<Method>, path: string, handler: nat): Table {
    var clean := StripQuery(path);
    if IsDynamic(clean) then
      t.(dynamics := t.dynamics + [Route(verb, Fixed(Segments(clean)), Wild(Segments(clean)), handler)])
    else if verb.Some? then t.(routes := t.routes[(verb.value, clean) := handler])
    else t.(anyRoutes := t.anyRoutes[clean := handler])
  }

  lemma {:induction false} FirstMore(dynamics: seq<Route>, r: Route, verb: Method, path: string)
    ensures First(dynamics + [r], verb, path) ==
            if First(dynamics, verb, path) < |dynamics| then First(dynamics, verb, path)
            else if Match(r, verb, path).Some? then |dynamics| else |dynamics| + 1
  {
    if dynamics != [] {
      assert (dynamics + [r])[1..] == dynamics[1..] + [r];
      FirstMore(dynamics[1..], r, verb, path);
    }
  }

  /** A path without ':' and '*' is kept whole; any other is compiled into a dynamic route behind the others. */
  lemma RegisteredWhere(t: Table, verb: Option<Method>, path: string, handler: nat)
    ensures var u, clean := Register(t, verb, path, handler), StripQuery(path);
            if ':' in clean || '*' in clean then
              && u.routes == t.routes && u.anyRoutes == t.anyRoutes && |u.dynamics| == |t.dynamics| + 1
              && u.dynamics[..|t.dynamics|] == t.dynamics && u.dynamics[|t.dynamics|].handler == handler
              && u.dynamics[|t.dynamics|].verb == verb
            else
              && u.dynamics == t.dynamics
              && (forall m: Method, p: string ::
                    ((m, p) in u.routes <==> (m, p) in t.routes || (p == clean && verb == Some(m)))
                    && ((m, p) in u.routes ==>
                          u.routes[(m, p)] == if p == clean && verb == Some(m) then handler else t.routes[(m, p)]))
              && (forall p: string ::
                    (p in u.anyRoutes <==> p in t.anyRoutes || (p == clean && verb == None))
                    && (p in u.anyRoutes ==>
                          u.anyRoutes[p] == if p == clean && verb == None then handler else t.anyRoutes[p]))
  {
  }

  /** A dynamic route registered later never takes a request from one registered earlier. */
  lemma EarlierWins(t: Table, verb: Option<Method>, path: string, handler: nat, asked: Method, at: string)
    requires ':' in StripQuery(path) || '*' in StripQuery(path)
    requires First(t.dynamics, asked, at) < |t.dynamics|
    ensures Chosen(Register(t, verb, path, handler), asked, at) == Chosen(t, asked, at)
  {
    FirstMore(t.dynamics, Register(t, verb, path, handler).dynamics[|t.dynamics|], asked, at);
  }

  /** A static route replaces an earlier one for the same path, and is chosen before any other. */
  lemma StaticWins(t: Table, verb: Method, path: string, handler: nat, at: string)
    requires ':' !in StripQuery(path) && '*' !in StripQuery(path) && StripQuery(at) == StripQuery(path)
    ensures Chosen(Register(t, Some(verb), path, handler), verb, at) == Some((handler, map[]))
  {
  }

  /** The same for a static route for any method, where there is none for the method asked for. */
  lemma AnyWins(t: Table, path: string, handler: nat, asked: Method, at: string)
    requires ':' !in StripQuery(path) && '*' !in StripQuery(path) && StripQuery(at) == StripQuery(path)
    requires (asked, StripQuery(path)) !in t.routes
    ensures Chosen(Register(t, None, path, handler), asked, at) == Some((handler, map[]))
  {
  }

  /**
   * A pattern registered for a method, or for any, and asked for with that method by a path made from it, is
   * chosen with exactly the values of that path.
   */
  lemma RegisteredIsFound(
    t: Table, v: Option<Method>, verb: Method, path: string, handler: nat, vals: map<string, string>, rest: seq<string>)
    requires v.Some? ==> v.value == verb
    requires ':' in StripQuery(path) || '*' in StripQuery(path)
    requires var pats := Fixed(Segments(StripQuery(path)));
             && Proper(pats) && Names(pats) <= vals.Keys && (forall n :: n in Names(pats) ==> Plain(vals[n]))
             && AllPlain(rest) && (Wild(Segments(StripQuery(path))).None? ==> rest == [])
             && var at := PathOf(Fill(pats, vals) + rest);
                (verb, at) !in t.routes && at !in t.anyRoutes && First(t.dynamics, verb, at) == |t.dynamics|
    ensures var u := Register(t, v, path, handler);
            var r := u.dynamics[|t.dynamics|];
            Chosen(u, verb, PathOf(Fill(r.segments, vals) + rest)) == Some((handler, Params(r, vals, rest)))
  {
    var r := Register(t, v, path, handler).dynamics[|t.dynamics|];
    var acts := Fill(r.segments, vals) + rest;
    CompiledPlain(path);
    FillPlain(r.segments, vals);
    PathHasNoQuery(acts);
    RoundTrip(r, verb, vals, rest);
    FirstMore(t.dynamics, r, verb, PathOf(acts));
  }
}

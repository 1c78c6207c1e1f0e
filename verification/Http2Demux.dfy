/** What the session queues, told from the events alone. */
module Http2Demux {
  import opened HttpTypes
  import opened Http2Spec

  /** The events of one stream. */
  function Own(events: seq<Event>, sid: int): seq<Event> {
    if events == [] then []
    else
      var e := events[|events| - 1];
      Own(events[..|events| - 1], sid) + if e.sid == sid then [e] else []
  }

  predicate Opens(e: Event) { e.BeginHeaders? || e.Header? || e.DataChunk? }

  /** The stream has been given a slot. */
  predicate Started(p: seq<Event>) { exists k :: 0 <= k < |p| && Opens(p[k]) }

  predicate Ends(e: Event) { (e.HeadersFrame? && e.endHeaders && e.endStream) || (e.DataFrame? && e.endStream) }

  /** The value of the last header of that name, or else the default. */
  function Last(p: seq<Event>, name: string, default: string): string {
    if p == [] then default
    else
      var e := p[|p| - 1];
      if e.Header? && e.name == name then e.value else Last(p[..|p| - 1], name, default)
  }

  predicate Pseudo(name: string) { name == ":method" || name == ":path" }

  function Names(p: seq<Event>): set<string> { set e | e in p && e.Header? && !Pseudo(e.name) :: e.name }

  function Headers(p: seq<Event>): map<string, string> { map n | n in Names(p) :: Last(p, n, "") }

  function Body(p: seq<Event>): seq<nat> {
    if p == [] then []
    else
      var e := p[|p| - 1];
      Body(p[..|p| - 1]) + if e.DataChunk? then e.data else []
  }

  /** The request that a stream's own events describe: the last value of each header, and all the data. */
  function Assemble(p: seq<Event>): Request {
    Request(ToMethod(Last(p, ":method", "GET")), Last(p, ":path", ""), Headers(p), Body(p))
  }

  /** A HEADERS frame came after the stream had its slot. */
  function HeadersDone(p: seq<Event>): bool {
    p != [] && (HeadersDone(p[..|p| - 1]) || (p[|p| - 1].HeadersFrame? && Started(p[..|p| - 1])))
  }

  /** The last frame of a message came after the stream had its slot. */
  function BodyDone(p: seq<Event>): bool {
    p != [] && (BodyDone(p[..|p| - 1]) || (Ends(p[|p| - 1]) && Started(p[..|p| - 1])))
  }

  lemma StartedMore(p: seq<Event>, e: Event)
    ensures Started(p + [e]) <==> Started(p) || Opens(e)
  {
    if Started(p) {
      var k :| 0 <= k < |p| && Opens(p[k]);
      assert Opens((p + [e])[k]);
    }
    if Opens(e) { assert Opens((p + [e])[|p|]); }
  }

  lemma LastMore(p: seq<Event>, e: Event, n: string, default: string)
    ensures Last(p + [e], n, default) == if e.Header? && e.name == n then e.value else Last(p, n, default)
  {
    assert (p + [e])[..|p|] == p;
  }

  lemma HeadersMore(p: seq<Event>, e: Event)
    ensures Headers(p + [e]) == if e.Header? && !Pseudo(e.name) then Headers(p)[e.name := e.value] else Headers(p)
  {
    var q := p + [e];
    assert Names(q) == Names(p) + if e.Header? && !Pseudo(e.name) then {e.name} else {} by {
      forall n ensures n in Names(q) <==> n in Names(p) || (e.Header? && !Pseudo(n) && e.name == n) {
        if n in Names(p) {
          var x :| x in p && x.Header? && !Pseudo(x.name) && x.name == n;
          assert x in q;
        }
      }
    }
    forall n | n in Names(q) ensures Last(q, n, "") == if e.Header? && e.name == n then e.value else Last(p, n, "") {
      LastMore(p, e, n, "");
    }
  }

  lemma BodyMore(p: seq<Event>, e: Event)
    ensures Body(p + [e]) == Body(p) + if e.DataChunk? then e.data else []
  {
    assert (p + [e])[..|p|] == p;
  }

  /** One more event of the stream, as its callback takes it. */
  function Taken(r: Request, e: Event): Request {
    match e
    case Header(_, name, value) => WithHeader(r, name, value)
    case DataChunk(_, data) => r.(body := r.body + data)
    case _ => r
  }

  lemma AssembleMore(p: seq<Event>, e: Event)
    ensures Assemble(p + [e]) == Taken(Assemble(p), e)
  {
    LastMore(p, e, ":method", "GET");
    LastMore(p, e, ":path", "");
    HeadersMore(p, e);
    BodyMore(p, e);
  }

  // Streams do not disturb each other

  /** Stream `sid` has in its slot what its own events `p` describe. */
  predicate SlotIs(s: State, sid: int, p: seq<Event>) {
    && (sid in s.requests <==> Started(p))
    && (sid in s.requests ==>
          && s.requests[sid].request == Assemble(p)
          && s.requests[sid].headersComplete == HeadersDone(p) && s.requests[sid].bodyComplete == BodyDone(p))
  }

  lemma {:induction false} NotStarted(p: seq<Event>)
    requires !Started(p)
    ensures Assemble(p) == EMPTY.request && !HeadersDone(p) && !BodyDone(p)
  {
    if p == [] {
      assert Headers(p) == map[];
    } else {
      var init, e := p[..|p| - 1], p[|p| - 1];
      assert p == init + [e];
      StartedMore(init, e);
      AssembleMore(init, e);
      NotStarted(init);
    }
  }

  lemma HeadersDoneMore(p: seq<Event>, e: Event)
    ensures HeadersDone(p + [e]) <==> HeadersDone(p) || (e.HeadersFrame? && Started(p))
  {
    assert (p + [e])[..|p|] == p;
  }

  lemma BodyDoneMore(p: seq<Event>, e: Event)
    ensures BodyDone(p + [e]) <==> BodyDone(p) || (Ends(e) && Started(p))
  {
    assert (p + [e])[..|p|] == p;
  }

  lemma StepOwn(s: State, e: Event, p: seq<Event>)
    requires SlotIs(s, e.sid, p)
    ensures SlotIs(Step(s, e), e.sid, p + [e])
  {
    StartedMore(p, e);
    AssembleMore(p, e);
    HeadersDoneMore(p, e);
    BodyDoneMore(p, e);
    if !Started(p) { NotStarted(p); }
  }

  lemma StepOther(s: State, e: Event, sid: int, p: seq<Event>)
    requires SlotIs(s, sid, p) && sid != e.sid
    ensures SlotIs(Step(s, e), sid, p)
  {
  }

  /** After any interleaving, a stream's slot is told by the events of that stream alone. */
  lemma {:induction false} NoInterference(events: seq<Event>, sid: int)
    ensures SlotIs(After(events), sid, Own(events, sid))
  {
    if events != [] {
      var init, e := events[..|events| - 1], events[|events| - 1];
      NoInterference(init, sid);
      if e.sid == sid {
        StepOwn(After(init), e, Own(init, sid));
      } else {
        StepOther(After(init), e, sid, Own(init, sid));
      }
      assert Own(init, sid) + [] == Own(init, sid);
    }
  }

  /** The stream that began its headers last. */
  function LastBegun(events: seq<Event>): int {
    if events == [] then 0
    else if events[|events| - 1].BeginHeaders? then events[|events| - 1].sid
    else LastBegun(events[..|events| - 1])
  }

  lemma {:induction false} CurrentIs(events: seq<Event>)
    ensures After(events).current == LastBegun(events)
  {
    if events != [] { CurrentIs(events[..|events| - 1]); }
  }

  // The queue

  /** What event `e` adds to the queue after the events `p` of its stream. */
  function Emit(p: seq<Event>, e: Event): seq<(int, Request)> {
    if Ends(e) && Started(p) && (e.DataFrame? ==> HeadersDone(p)) then [(e.sid, Assemble(p))] else []
  }

  function Queue(events: seq<Event>): seq<(int, Request)> {
    if events == [] then []
    else
      var init, e := events[..|events| - 1], events[|events| - 1];
      Queue(init) + Emit(Own(init, e.sid), e)
  }

  lemma StepEmits(s: State, e: Event, p: seq<Event>)
    requires SlotIs(s, e.sid, p)
    ensures Step(s, e).pending == s.pending + Emit(p, e)
  {
  }

  /** The queue after any events at all, well formed or not. */
  lemma {:induction false} QueueIs(events: seq<Event>)
    ensures After(events).pending == Queue(events)
  {
    if events != [] {
      var init, e := events[..|events| - 1], events[|events| - 1];
      QueueIs(init);
      NoInterference(init, e.sid);
      StepEmits(After(init), e, Own(init, e.sid));
    }
  }

  // Streams as section 5.1 and section 8.1 of RFC 9113 have them

  /**
   * The events of a stream that belong to its message: it opens with HEADERS, has its data after
   * a HEADERS frame, and ends with its last event.
   */
  predicate WellFormed(p: seq<Event>) {
    && (p != [] ==> p[0].BeginHeaders?)
    && (forall k :: 0 <= k < |p| && Ends(p[k]) ==> k == |p| - 1)
    && (forall k :: 0 <= k < |p| && p[k].DataFrame? ==> HeadersDone(p[..k]))
  }

  /**
   * The events without the frames that carry no part of a message: SETTINGS, PING and GOAWAY, whose
   * stream is 0, and PRIORITY, RST_STREAM and WINDOW_UPDATE, which may also come after END_STREAM.
   */
  function Messages(events: seq<Event>): seq<Event> {
    if events == [] then []
    else
      var e := events[|events| - 1];
      Messages(events[..|events| - 1]) + if e.OtherFrame? then [] else [e]
  }

  ghost predicate AllWellFormed(events: seq<Event>) { forall sid: int :: WellFormed(Own(Messages(events), sid)) }

  /** The same of events with no other frames among them. */
  ghost predicate AllStrict(events: seq<Event>) { forall sid: int :: WellFormed(Own(events, sid)) }

  /** The streams in the order in which they ended. */
  function EndOrder(events: seq<Event>): seq<int> {
    if events == [] then []
    else
      var e := events[|events| - 1];
      EndOrder(events[..|events| - 1]) + if Ends(e) then [e.sid] else []
  }

  lemma WellFormedPrefix(p: seq<Event>, e: Event)
    requires WellFormed(p + [e])
    ensures WellFormed(p) && (forall k :: 0 <= k < |p| ==> !Ends(p[k]))
    ensures Ends(e) ==> Started(p) && (e.DataFrame? ==> HeadersDone(p))
  {
    var q := p + [e];
    forall k | 0 <= k < |p| ensures !Ends(p[k]) { assert q[k] == p[k]; }
    forall k | 0 <= k < |p| && p[k].DataFrame? ensures HeadersDone(p[..k]) {
      assert q[k] == p[k] && q[..k] == p[..k];
    }
    assert q[|p|] == e && q[..|p|] == p;
    if p != [] { assert q[0] == p[0] && Opens(p[0]); }
  }

  lemma OwnMore(events: seq<Event>, sid: int)
    requires events != []
    ensures var init, e := events[..|events| - 1], events[|events| - 1];
            Own(events, sid) == if e.sid == sid then Own(init, sid) + [e] else Own(init, sid)
  {
  }

  lemma AllStrictPrefix(events: seq<Event>)
    requires AllStrict(events) && events != []
    ensures AllStrict(events[..|events| - 1])
  {
    var init, e := events[..|events| - 1], events[|events| - 1];
    forall sid: int ensures WellFormed(Own(init, sid)) {
      assert WellFormed(Own(events, sid));
      OwnMore(events, sid);
      if e.sid == sid { WellFormedPrefix(Own(init, sid), e); }
    }
  }

  /** A stream that has ended has an ending event of its own. */
  lemma {:induction false} EndedHasEnd(events: seq<Event>, sid: int)
    requires sid in EndOrder(events)
    ensures exists k :: 0 <= k < |Own(events, sid)| && Ends(Own(events, sid)[k])
  {
    var init, e := events[..|events| - 1], events[|events| - 1];
    var p := Own(init, sid);
    OwnMore(events, sid);
    if Ends(e) && e.sid == sid {
      assert Ends(Own(events, sid)[|p|]);
    } else {
      EndedHasEnd(init, sid);
      var k :| 0 <= k < |p| && Ends(p[k]);
      assert Own(events, sid)[k] == p[k];
    }
  }

  /** Nothing more comes on a stream that has ended. */
  lemma NotEndedYet(events: seq<Event>)
    requires AllStrict(events) && events != []
    ensures var init, e := events[..|events| - 1], events[|events| - 1]; e.sid !in EndOrder(init)
  {
    var init, e := events[..|events| - 1], events[|events| - 1];
    assert WellFormed(Own(events, e.sid));
    OwnMore(events, e.sid);
    WellFormedPrefix(Own(init, e.sid), e);
    if e.sid in EndOrder(init) { EndedHasEnd(init, e.sid); }
  }

  lemma {:induction false} EachStrictOnce(events: seq<Event>)
    requires AllStrict(events)
    ensures |After(events).pending| == |EndOrder(events)|
    ensures forall n :: 0 <= n < |EndOrder(events)| ==>
              After(events).pending[n] == (EndOrder(events)[n], Assemble(Own(events, EndOrder(events)[n])))
    ensures forall m, n :: 0 <= m < n < |EndOrder(events)| ==> EndOrder(events)[m] != EndOrder(events)[n]
  {
    QueueIs(events);
    if events != [] {
      var init, e := events[..|events| - 1], events[|events| - 1];
      AllStrictPrefix(events);
      EachStrictOnce(init);
      QueueIs(init);
      NotEndedYet(events);
      QueueGrows(events);
      forall n | 0 <= n < |EndOrder(events)|
        ensures Queue(events)[n] == (EndOrder(events)[n], Assemble(Own(events, EndOrder(events)[n])))
      {
        QueueStep(events, n);
      }
    }
  }

  lemma QueueGrows(events: seq<Event>)
    requires AllStrict(events) && events != []
    ensures var init, e := events[..|events| - 1], events[|events| - 1];
            Queue(events) == Queue(init) + if Ends(e) then [(e.sid, Assemble(Own(events, e.sid)))] else []
  {
    var init, e := events[..|events| - 1], events[|events| - 1];
    assert WellFormed(Own(events, e.sid));
    OwnMore(events, e.sid);
    WellFormedPrefix(Own(init, e.sid), e);
    AssembleMore(Own(init, e.sid), e);
  }

  lemma QueueStep(events: seq<Event>, n: nat)
    requires AllStrict(events) && events != [] && n < |EndOrder(events)| == |Queue(events)|
    requires var init, e := events[..|events| - 1], events[|events| - 1];
             && |Queue(init)| == |EndOrder(init)| && e.sid !in EndOrder(init)
             && (n < |EndOrder(init)| ==> Queue(init)[n] == (EndOrder(init)[n], Assemble(Own(init, EndOrder(init)[n]))))
    ensures Queue(events)[n] == (EndOrder(events)[n], Assemble(Own(events, EndOrder(events)[n])))
  {
    var init := events[..|events| - 1];
    QueueGrows(events);
    if n < |EndOrder(init)| { OwnMore(events, EndOrder(init)[n]); }
  }

  /** Other frames change nothing. */
  lemma {:induction false} MessagesAfter(events: seq<Event>)
    ensures After(Messages(events)) == After(events) && EndOrder(Messages(events)) == EndOrder(events)
  {
    if events != [] {
      var init, e := events[..|events| - 1], events[|events| - 1];
      MessagesAfter(init);
      if e.OtherFrame? {
        assert Messages(events) == Messages(init);
      } else {
        assert Messages(events)[..|Messages(events)| - 1] == Messages(init);
      }
    }
  }

  lemma {:induction false} MessagesAssemble(events: seq<Event>, sid: int)
    ensures Assemble(Own(Messages(events), sid)) == Assemble(Own(events, sid))
  {
    if events != [] {
      var init, e := events[..|events| - 1], events[|events| - 1];
      MessagesAssemble(init, sid);
      OwnMore(events, sid);
      if e.OtherFrame? {
        assert Messages(events) == Messages(init);
      } else {
        assert Messages(events)[..|Messages(events)| - 1] == Messages(init);
        OwnMore(Messages(events), sid);
        AssembleMore(Own(Messages(init), sid), e);
      }
      if e.sid == sid { AssembleMore(Own(init, sid), e); }
    }
  }

  /**
   * Every stream that ended is queued exactly once, in the order of the ends, with the request
   * that all of its own events describe, whatever other frames come in between.
   */
  lemma EachStreamOnce(events: seq<Event>)
    requires AllWellFormed(events)
    ensures |After(events).pending| == |EndOrder(events)|
    ensures forall n :: 0 <= n < |EndOrder(events)| ==>
              After(events).pending[n] == (EndOrder(events)[n], Assemble(Own(events, EndOrder(events)[n])))
    ensures forall m, n :: 0 <= m < n < |EndOrder(events)| ==> EndOrder(events)[m] != EndOrder(events)[n]
  {
    EachStrictOnce(Messages(events));
    MessagesAfter(events);
    forall n | 0 <= n < |EndOrder(events)|
      ensures After(events).pending[n] == (EndOrder(events)[n], Assemble(Own(events, EndOrder(events)[n])))
    {
      MessagesAssemble(events, EndOrder(events)[n]);
    }
  }
}

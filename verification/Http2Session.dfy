/** The session's state, changed by the callbacks in place. */
module Http2Session {
  import opened HttpTypes
  import opened Http2Spec

  class Session {
    var requests: map<int, StreamRequest>
    var pending: seq<(int, Request)>
    var current: int

    ghost function View(): State
      reads this
    {
      State(requests, pending, current)
    }

    constructor ()
      ensures View() == INITIAL
    {
      requests, pending, current := map[], [], 0;
    }

    method OnBeginHeaders(sid: int)
      modifies this
      ensures View() == Step(old(View()), BeginHeaders(sid))
    {
      current := sid;
      if sid !in requests { requests := requests[sid := EMPTY]; }
      assert requests == old(requests)[sid := Slot(old(View()), sid)];
    }

    method OnHeader(sid: int, name: string, value: string)
      modifies this
      ensures View() == Step(old(View()), Header(sid, name, value))
    {
      if sid !in requests { requests := requests[sid := EMPTY]; }
      var r := requests[sid].request;
      if name == ":method" {
        r := r.(verb := ToMethod(value));
      } else if name == ":path" {
        r := r.(path := value);
      } else {
        r := r.(headers := r.headers[name := value]);
      }
      requests := requests[sid := requests[sid].(request := r)];
    }

    method OnFrame(e: Event)
      requires e.HeadersFrame? || e.DataFrame? || e.OtherFrame?
      modifies this
      ensures View() == Step(old(View()), e)
    {
      var sid := e.sid;
      if e.HeadersFrame? {
        if sid in requests {
          requests := requests[sid := requests[sid].(headersComplete := true)];
          if e.endHeaders && e.endStream {
            requests := requests[sid := requests[sid].(bodyComplete := true)];
            pending := pending + [(sid, requests[sid].request)];
          }
        }
      } else if e.DataFrame? {
        if e.endStream && sid in requests {
          requests := requests[sid := requests[sid].(bodyComplete := true)];
          if requests[sid].headersComplete { pending := pending + [(sid, requests[sid].request)]; }
        }
      }
    }

    method OnDataChunk(sid: int, data: seq<nat>)
      modifies this
      ensures View() == Step(old(View()), DataChunk(sid, data))
    {
      if sid !in requests { requests := requests[sid := EMPTY]; }
      var r := requests[sid];
      requests := requests[sid := r.(request := r.request.(body := r.request.body + data))];
    }
  }
}

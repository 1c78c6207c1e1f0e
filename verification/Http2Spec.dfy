/** HTTP/2 demultiplexing: how the callbacks of a server session assemble one request per stream. */
module Http2Spec {
  import opened HttpTypes

  datatype Request = Request(verb: Method, path: string, headers: map<string, string>, body: seq<nat>)

  datatype StreamRequest = StreamRequest(request: Request, headersComplete: bool, bodyComplete: bool)

  const EMPTY: StreamRequest := StreamRequest(Request(GET, "", map[], []), false, false)

  datatype State = State(requests: map<int, StreamRequest>, pending: seq<(int, Request)>, current: int)

  const INITIAL: State := State(map[], [], 0)

  /** What the parser reports, each with its stream. */
  datatype Event =
    | BeginHeaders(sid: int)
    | Header(sid: int, name: string, value: string)
    | HeadersFrame(sid: int, endHeaders: bool, endStream: bool)
    | DataChunk(sid: int, data: seq<nat>)
    | DataFrame(sid: int, endStream: bool)
    | OtherFrame(sid: int)

  function Slot(s: State, sid: int): StreamRequest { if sid in s.requests then s.requests[sid] else EMPTY }

  function WithHeader(r: Request, name: string, value: string): Request {
    if name == ":method" then r.(verb := ToMethod(value))
    else if name == ":path" then r.(path := value)
    else r.(headers := r.headers[name := value])
  }

  function OnHeadersFrame(s: State, sid: int, last: bool): State
    requires sid in s.requests
  {
    var r := s.requests[sid].(headersComplete := true);
    if last then s.(requests := s.requests[sid := r.(bodyComplete := true)], pending := s.pending + [(sid, r.request)])
    else s.(requests := s.requests[sid := r])
  }

  function OnDataEnd(s: State, sid: int): State
    requires sid in s.requests
  {
    var r := s.requests[sid].(bodyComplete := true);
    s.(requests := s.requests[sid := r],
       pending := if r.headersComplete then s.pending + [(sid, r.request)] else s.pending)
  }

  function Step(s: State, e: Event): State {
    match e
    case BeginHeaders(sid) => s.(requests := s.requests[sid := Slot(s, sid)], current := sid)
    case Header(sid, name, value) =>
      var r := Slot(s, sid);
      s.(requests := s.requests[sid := r.(request := WithHeader(r.request, name, value))])
    case HeadersFrame(sid, endHeaders, endStream) =>
      if sid in s.requests then OnHeadersFrame(s, sid, endHeaders && endStream) else s
    case DataChunk(sid, data) =>
      var r := Slot(s, sid);
      s.(requests := s.requests[sid := r.(request := r.request.(body := r.request.body + data))])
    case DataFrame(sid, endStream) => if endStream && sid in s.requests then OnDataEnd(s, sid) else s
    case OtherFrame(_) => s
  }

  function After(events: seq<Event>): State {
    if events == [] then INITIAL else Step(After(events[..|events| - 1]), events[|events| - 1])
  }
}

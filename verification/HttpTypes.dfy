/** Request methods; a name that is not known counts as GET. */
module HttpTypes {
  datatype Method = GET | POST | PUT | DELETE | HEAD | OPTIONS | PATCH | CONNECT | TRACE

  function ToMethod(s: string): Method {
    if s == "GET" then GET else if s == "POST" then POST else if s == "PUT" then PUT
    else if s == "DELETE" then DELETE else if s == "HEAD" then HEAD else if s == "OPTIONS" then OPTIONS
    else if s == "PATCH" then PATCH else if s == "CONNECT" then CONNECT else if s == "TRACE" then TRACE else GET
  }

  /** The method's own name. */
  function Name(m: Method): string {
    match m
    case GET => "GET"
    case POST => "POST"
    case PUT => "PUT"
    case DELETE => "DELETE"
    case HEAD => "HEAD"
    case OPTIONS => "OPTIONS"
    case PATCH => "PATCH"
    case CONNECT => "CONNECT"
    case TRACE => "TRACE"
  }

  /** Each name is read as its own method, and any other text as GET. */
  lemma NameRead(s: string, m: Method)
    ensures ToMethod(Name(m)) == m
    ensures s != Name(ToMethod(s)) ==> ToMethod(s) == GET
  {
  }
}

/** The PlanetScale REST API as the plugin sees it: decoded JSON responses,
    the requests it issues, and a scripted client that answers them in order
    and keeps a log of every exchange. */
module Api {
  import opened Text

  /** A JSON value in a field the plugin compares against a string. */
  datatype Value = Str(s: string) | NonString

  /** A decoded response body, reduced to the fields the plugin reads:
      `code`, `data` (a list of `{name}` items), `name`, `message` and
      `connection_strings.laravel` (already parsed by dotenv). */
  datatype Response = Response(
    code: Option<Value>,
    data: Option<seq<string>>,
    name: Option<string>,
    message: Option<string>,
    laravel: Option<Env>)

  /** `Arr::get($response, 'code') === 'forbidden'`. */
  predicate IsForbidden(r: Response)
  {
    r.code == Some(Str("forbidden"))
  }

  datatype Verb = GET | POST

  /** A request relative to https://api.planetscale.com/v1/, with its query
      string and its JSON body (both empty when not sent). */
  datatype Request = Request(verb: Verb, path: string, query: Env, body: Env)

  /** One line of the client's log: a request with the response it got
      (none once the script is used up), or a `clearClients()` call. */
  datatype Event = Exchange(request: Request, response: Option<Response>) | Cleared

  /** An exchange whose response was a permission denial. */
  predicate Refused(e: Event)
  {
    e.Exchange? && e.response.Some? && IsForbidden(e.response.value)
  }

  /** The client's state: the responses still to come and the log so far. */
  datatype Http = Http(pending: seq<Response>, log: seq<Event>)

  /** Issue `req`: the next scripted response answers it, and the exchange is logged. */
  function Send(h: Http, req: Request): (Option<Response>, Http)
  {
    if h.pending == [] then (None, h.(log := h.log + [Exchange(req, None)]))
    else (Some(h.pending[0]), Http(h.pending[1..], h.log + [Exchange(req, Some(h.pending[0]))]))
  }

  /** `$http->clearClients()`: drops the built client; the script goes on. */
  function Clear(h: Http): Http
  {
    h.(log := h.log + [Cleared])
  }

  /** The HTTP client, answering from a script of responses. */
  class Client {
    var pending: seq<Response>
    var log: seq<Event>

    constructor (script: seq<Response>)
      ensures pending == script && log == []
    {
      pending, log := script, [];
    }

    function State(): Http
      reads this
    {
      Http(pending, log)
    }

    method Exchange(req: Request) returns (r: Option<Response>)
      modifies this
      ensures (r, State()) == Send(old(State()), req)
    {
      if pending == [] {
        r := None;
      } else {
        r := Some(pending[0]);
        pending := pending[1..];
      }
      log := log + [Event.Exchange(req, r)];
    }

    /** `$http->client()->get($path, $query)->json()`. */
    method Get(path: string, query: Env) returns (r: Option<Response>)
      modifies this
      ensures (r, State()) == Send(old(State()), Request(GET, path, query, []))
    {
      r := Exchange(Request(GET, path, query, []));
    }

    /** `$http->client()->post($path, $body)->json()`. */
    method Post(path: string, body: Env) returns (r: Option<Response>)
      modifies this
      ensures (r, State()) == Send(old(State()), Request(POST, path, [], body))
    {
      r := Exchange(Request(POST, path, [], body));
    }

    method ClearClients()
      modifies this
      ensures State() == Clear(old(State()))
    {
      log := log + [Cleared];
    }
  }
}

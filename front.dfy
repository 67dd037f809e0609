/** The HTTP front end's decisions: which backend a host name is proxied to,
    the ping every request sends to the authority, and the response chosen
    from the request's query and the reply. Rendering, escaping and the
    transport are not part of this model; a response names what is sent. */
module Front {
  import opened Wrappers
  import opened Cloud
  import opened Statuses
  import opened Lifecycle
  import opened Machine

  /** A parsed query string: each parameter name with its values in order. */
  type Query = map<string, seq<string>>

  /** The query parameter that carries the start directive, and its value. */
  const DIRECTIVE: string := "flywheel"
  const START: string := "start"

  /** A query as Go's URL parser yields it: a name is present only with at
      least one value, so its first value can be read. */
  predicate WellFormed(q: Query)
  {
    forall k :: k in q ==> |q[k]| > 0
  }

  /** The part of a request URL the front end rewrites: its path and query. */
  datatype Target = Target(path: string, query: Query)

  /** What the handler answers. */
  datatype Response =
    | Redirect(location: Target)        // 302 with a Location header
    | ErrorPage(err: Error)             // the error page, naming the error
    | StoppedPage(startLink: Target)    // the "stopped" page and its start link
    | InfoPage(status: Status)          // the STARTING, STOPPING or UNHEALTHY page
    | Forward(endpoint: string, target: Target) // proxied to the backend

  /** `ProxyEndpoint`: the virtual host's backend when one is configured for
      `hostname`, the default endpoint otherwise. */
  function ProxyEndpoint(cfg: Config, hostname: string): (r: string)
    ensures hostname in cfg.vhosts ==> r == cfg.vhosts[hostname]
    ensures hostname !in cfg.vhosts ==> r == cfg.endpoint
    ensures r in cfg.vhosts.Values || r == cfg.endpoint
  {
    if hostname in cfg.vhosts then cfg.vhosts[hostname] else cfg.endpoint
  }

  /** The ping `SendPing` submits: never a status read, never a stop, never
      an explicit deadline; only the start flag varies. */
  function SendPing(start: bool): (p: Ping)
    ensures p.requestStart == start
    ensures !p.noop && !p.requestStop && p.setTimeout == 0
  {
    Ping(0, start, false, false)
  }

  /** Start is requested exactly when the directive is present and its first
      value is "start". */
  function RequestsStart(q: Query): (b: bool)
    requires WellFormed(q)
    ensures b <==> DIRECTIVE in q && q[DIRECTIVE][0] == START
    ensures b ==> |q[DIRECTIVE]| > 0
  {
    DIRECTIVE in q && q[DIRECTIVE][0] == START
  }

  /** The response of `ServeHTTP` to a request for `url` on `hostname`, once
      the authority answered `pong`. A present directive always redirects to
      the same URL without it; otherwise an error wins over the status; only
      STARTED forwards; STOPPED offers a link that adds the start directive. */
  function Respond(cfg: Config, hostname: string, url: Target, pong: Pong): (r: Response)
    ensures r.Redirect? <==> DIRECTIVE in url.query
    ensures r.ErrorPage? <==> DIRECTIVE !in url.query && pong.err.Some?
    ensures r.ErrorPage? ==> Some(r.err) == pong.err
    ensures r.Forward? <==> DIRECTIVE !in url.query && pong.err.None? && pong.status == STARTED
    ensures r.StoppedPage? <==> DIRECTIVE !in url.query && pong.err.None? && pong.status == STOPPED
    ensures r.InfoPage? ==> r.status == pong.status && r.status in {STARTING, STOPPING, UNHEALTHY}
    ensures r.Forward? ==> r.endpoint == ProxyEndpoint(cfg, hostname) && r.target == url
  {
    if DIRECTIVE in url.query then
      Redirect(url.(query := url.query - {DIRECTIVE}))
    else if pong.err.Some? then
      ErrorPage(pong.err.value)
    else
      match pong.status
      case STOPPED => StoppedPage(url.(query := url.query[DIRECTIVE := [START]]))
      case STARTED => Forward(ProxyEndpoint(cfg, hostname), url)
      case _ => InfoPage(pong.status)
  }

  /** The redirect drops exactly the directive: the path and every other
      parameter, with all its values, are kept, and the URL it points to
      carries no directive, so following it is a plain keep-alive request. */
  lemma RedirectStripsOnlyDirective(cfg: Config, hostname: string, url: Target, pong: Pong)
    requires WellFormed(url.query)
    requires DIRECTIVE in url.query
    ensures var r := Respond(cfg, hostname, url, pong);
      r.Redirect? && r.location.path == url.path &&
      r.location.query.Keys == url.query.Keys - {DIRECTIVE} &&
      (forall k :: k in r.location.query ==> r.location.query[k] == url.query[k]) &&
      WellFormed(r.location.query) && !RequestsStart(r.location.query)
  {
  }

  /** The directive never reaches the backend: a forwarded URL has none. */
  lemma ForwardCarriesNoDirective(cfg: Config, hostname: string, url: Target, pong: Pong)
    ensures var r := Respond(cfg, hostname, url, pong);
      r.Forward? ==> DIRECTIVE !in r.target.query
  {
  }

  /** The start link of the STOPPED page is the same URL plus the directive
      "start": following it requests a start, and the redirect that answers
      it leads back to the original URL. */
  lemma {:induction false} StartLinkRoundTrip(cfg: Config, hostname: string, url: Target, pong: Pong, pong': Pong)
    requires WellFormed(url.query)
    requires Respond(cfg, hostname, url, pong).StoppedPage?
    ensures var link := Respond(cfg, hostname, url, pong).startLink;
      WellFormed(link.query) && RequestsStart(link.query) &&
      Respond(cfg, hostname, link, pong') == Redirect(url)
  {
    var link := Respond(cfg, hostname, url, pong).startLink;
    assert link.query - {DIRECTIVE} == url.query;
  }

  /** Seen by the authority, an HTTP request is a keep-alive or a start
      request: while STARTED it moves the deadline one idle timeout ahead
      and nothing else, it never runs the stop chain, and it changes the
      state only while STARTED, or while STOPPED when it asks to start. */
  lemma HttpPingIsKeepAliveOrStart(cfg: Config, o: Oracle, c: Core, start: bool, now: int, order: seq<GroupName>)
    requires Sizable(cfg, Restore, order)
    ensures var (c1, pong) := PingStep(cfg, o, c, SendPing(start), now, order);
      (c.status == STARTED ==> c1 == c.(stopAt := now + cfg.idleTimeout) && pong.err.None?) &&
      (c1 != c ==> c.status == STARTED || (c.status == STOPPED && start))
  {
  }
}

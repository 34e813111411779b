/** Ordered routes: what a list of directives does to one request. */
module CaddyRoutes {
  import opened Runs

  datatype Field =
    | Origin
    | SecFetchSite
    | SecFetchMode
    | SecFetchDest
    | Authorization
    | Cookie
    | Range
    | EmbyAuthorization
    | EmbyToken
    | MediaBrowserToken
    | SkilletPeer
    | SkilletUser
    | WebauthUser
    | RemoteUser
    | TailscaleUser
    | HostHeader
    | OtherField(name: string)

  /** Request headers; an absent one reads as the empty text. */
  datatype Headers = Headers(of: map<Field, string>) {
    function Get(f: Field): string { if f in of then of[f] else "" }
    function Put(f: Field, value: string): Headers { Headers(of[f := value]) }
    function Remove(f: Field): Headers { Headers(of - {f}) }
  }

  /** `user` is who the broker vouches for when asked about the peer of this request. */
  datatype Request = Request(
    verb: string,
    path: string,
    query: string,
    percentEncoded: bool,
    onTailnet: bool,
    user: Option<string>,
    headers: Headers)

  datatype OutField = Hsts | ContentType | CacheControl | AllowOrigin | AllowMethods | AllowHeaders | Vary

  /** Response headers set on the way. */
  datatype Out = Out(of: map<OutField, string>) {
    function Put(f: OutField, value: string): Out { Out(of[f := value]) }
    function Get(f: OutField): Option<string> { if f in of then Some(of[f]) else None }
  }

  datatype Outcome =
    | Answer(status: nat, body: string, out: Out)
    | Refused(out: Out)
    | Serve(root: string, out: Out)
    | Forward(target: string, path: string, headers: Headers, hideAllowOrigin: bool, cached: bool, out: Out)

  // Matchers ------------------------------------------------------------------------------------

  datatype Pattern = Exact(path: string) | Below(prefix: string)

  datatype Matcher =
    | Anything
    | OutsideTailnet
    | PercentPath
    | StaticAsset
    | QueryIs(value: string)
    | MethodIn(verbs: seq<string>)
    | PathIn(patterns: seq<Pattern>)
    | HeaderIs(field: Field, value: string)
    | Both(left: Matcher, right: Matcher)
    | Not(inner: Matcher)

  predicate Fits(p: Pattern, path: string) {
    match p
    case Exact(s) => path == s
    case Below(s) => s <= path
  }

  predicate FitsAny(patterns: seq<Pattern>, path: string) {
    exists i :: 0 <= i < |patterns| && Fits(patterns[i], path)
  }

  const EXTENSIONS: seq<string> := [".js", ".css", ".woff", ".woff2", ".ttf", ".svg", ".png", ".jpg", ".ico"]

  predicate IsStaticAsset(path: string) {
    "/web/" <= path && exists i :: 0 <= i < |EXTENSIONS| && 5 + |EXTENSIONS[i]| <= |path| && path[|path| - |EXTENSIONS[i]|..] == EXTENSIONS[i]
  }

  predicate Matches(m: Matcher, q: Request) {
    match m
    case Anything => true
    case OutsideTailnet => !q.onTailnet
    case PercentPath => q.percentEncoded
    case StaticAsset => IsStaticAsset(q.path)
    case QueryIs(value) => q.query == value
    case MethodIn(verbs) => q.verb in verbs
    case PathIn(patterns) => FitsAny(patterns, q.path)
    case HeaderIs(f, value) => q.headers.Get(f) == value
    case Both(a, b) => Matches(a, q) && Matches(b, q)
    case Not(a) => !Matches(a, q)
  }

  // Directives ----------------------------------------------------------------------------------

  datatype Change = SetUp(field: Field, value: string) | DropUp(field: Field)

  datatype Directive =
    | SetOut(m: Matcher, field: OutField, value: string)
    | Drop(dropped: Field)
    | Respond(m: Matcher, status: nat, body: string)
    | Root(m: Matcher, dir: string)
    | FileServer(m: Matcher)
    | ForwardAuth
    | StripPrefix(prefix: string)
    | UseCache
    | Proxy(target: string, changes: seq<Change>, hideAllowOrigin: bool)
    | Handle(m: Matcher, inner: Route)

  datatype Route = End | Then(head: Directive, tail: Route)

  datatype Context = Context(request: Request, out: Out, root: string, cached: bool)

  /** A request either goes on to the next directive or has been dealt with. */
  datatype Progress = Going(context: Context) | Stopped(outcome: Outcome)

  function Changed(h: Headers, changes: seq<Change>): Headers
    decreases |changes|
  {
    if changes == [] then h else
    match changes[0]
    case SetUp(f, value) => Changed(h.Put(f, value), changes[1..])
    case DropUp(f) => Changed(h.Remove(f), changes[1..])
  }

  function Stripped(path: string, prefix: string): string {
    if prefix <= path then path[|prefix|..] else path
  }

  /** Directives run in the order in which they are written, each at most once, until one deals with the
      request; matchers see the request as the directives before them left it. */
  function Do(d: Directive, c: Context): Progress
    decreases d
  {
    var q := c.request;
    match d
    case SetOut(m, f, value) => Going(if Matches(m, q) then c.(out := c.out.Put(f, value)) else c)
    case Drop(f) => Going(c.(request := q.(headers := q.headers.Remove(f))))
    case Respond(m, status, body) => if Matches(m, q) then Stopped(Answer(status, body, c.out)) else Going(c)
    case Root(m, dir) => Going(if Matches(m, q) then c.(root := dir) else c)
    case FileServer(m) => if Matches(m, q) then Stopped(Serve(c.root, c.out)) else Going(c)
    case ForwardAuth =>
      if q.user.None? then Stopped(Refused(c.out))
      else Going(c.(request := q.(headers := q.headers.Put(SkilletUser, q.user.value))))
    case StripPrefix(prefix) => Going(c.(request := q.(path := Stripped(q.path, prefix))))
    case UseCache => Going(c.(cached := true))
    case Proxy(target, changes, hidden) => Stopped(Forward(target, q.path, Changed(q.headers, changes), hidden, c.cached, c.out))
    case Handle(m, inner) => if Matches(m, q) then Run(inner, c) else Going(c)
  }

  function Run(r: Route, c: Context): Progress
    decreases r
  {
    match r
    case End => Going(c)
    case Then(d, rest) =>
      match Do(d, c)
      case Stopped(outcome) => Stopped(outcome)
      case Going(c1) => Run(rest, c1)
  }

  function Append(a: Route, b: Route): Route {
    match a
    case End => b
    case Then(d, rest) => Then(d, Append(rest, b))
  }

  function AndThen(p: Progress, b: Route): Progress {
    match p
    case Stopped(outcome) => p
    case Going(c) => Run(b, c)
  }

  lemma {:induction false} RunAppend(a: Route, b: Route, c: Context)
    ensures Run(Append(a, b), c) == AndThen(Run(a, c), b)
  {
    if a.Then? && Do(a.head, c).Going? {
      RunAppend(a.tail, b, Do(a.head, c).context);
    }
  }

  const NO_HEADERS := Out(map[])

  function Start(q: Request): Context {
    Context(q, NO_HEADERS, "", false)
  }
}

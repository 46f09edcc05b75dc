/**
 * The remote Duda platform, seen from the adapter: the calls the adapter can issue, the HTTP
 * request each of them travels as, the exceptions the HTTP client raises, and an abstract
 * platform whose state is a plan catalog, a set of accounts, the sites with their publish status
 * and plan, and the permissions granted per (account, site).  Every issued call is appended to a log.  The platform's behaviour is the
 * pure function `Respond`; a table of `faults` overrides the reply to chosen calls, so that any
 * call can be made to fail or to return an arbitrary body.
 */
module Remote {
  import opened Wrappers
  import opened Json
  import Php

  datatype Method = GET | POST | DELETE

  /** The request as it leaves the HTTP client: method, URI, optional query and optional JSON text. */
  datatype HttpRequest = HttpRequest(verb: Method, uri: string, query: Option<seq<(string, string)>>, body: Option<string>)

  /** Every endpoint the adapter uses, with the arguments it sends. */
  datatype Call =
    | ListPlans
    | GetAccount(accountName: string)
    | CreateAccount(accountName: string, firstName: string, lastName: Option<string>, lang: string)
    | GetSite(siteId: string)
    | GetSitePlan(siteId: string)
    | GetPermissions(accountName: string, siteId: string)
    | SetPermissions(accountName: string, siteId: string, permissions: seq<string>)
    | Unpublish(siteId: string)
    | Publish(siteId: string)
    | ChangePlan(siteId: string, planId: int)
    | SsoLink(userId: string, siteId: string, target: string)
    | DeleteSite(siteId: string)
    | CreateSite(siteLang: Option<string>, domain: string)

  /** What `json_decode` makes of a body's text: nothing usable, or a value. */
  datatype Decoded = Invalid | Value(json: Json)

  /** A response body: its raw text and its decoded form. */
  datatype Body = Body(raw: string, decoded: Decoded)

  datatype HttpResponse = HttpResponse(status: int, reason: string, body: Body)

  /** The diagnostic payload a provision error carries. */
  datatype ErrorData =
    | NoData
    | RawResponse(raw: string)
    | PlanCatalog(plans: Json)
    | ResponseData(data: Json)

  /** What can be thrown through the adapter. */
  datatype Exception =
    // Guzzle's ClientException: a request exception for a 4xx reply, always with that reply.
    | ClientError(message: string, response: HttpResponse)
    // Any other Guzzle request exception (server errors, handler failures), with or without a reply.
    | RequestError(message: string, reply: Option<HttpResponse>)
    // A Guzzle transfer exception that is not a request exception (connection failure, timeout).
    | TransferError(message: string)
    // The provisioning framework's ProvisionFunctionError.
    | ProvisionError(message: string, data: ErrorData)
    // PHP's TypeError, raised where a value of the wrong type meets a typed parameter or return.
    | TypeError

  /** What the HTTP client hands back for a request: a body, or a thrown exception. */
  datatype Reply = Replied(body: Body) | Raised(exception: Exception)

  datatype Plan = Plan(id: int, name: string)

  datatype Site = Site(domain: Option<string>, published: bool, planId: int, lang: Option<string>)

  /**
   * The fixed part of the platform's behaviour: replies forced for chosen calls, and the SSO
   * targets the platform refuses.
   */
  datatype Env = Env(faults: map<Call, Reply>, rejectedTargets: set<string>)

  datatype State = State(
    catalog: seq<Plan>,
    accounts: set<string>,
    sites: map<string, Site>,
    permissions: map<(string, string), seq<string>>,
    freshSiteIds: seq<string>)

  /** Calls that only read the platform's state. */
  predicate IsQuery(call: Call) {
    call.ListPlans? || call.GetAccount? || call.GetSite? || call.GetSitePlan? || call.GetPermissions? || call.SsoLink?
  }

  /** The calls of a log that change the platform's state, in the order they were made. */
  function Changes(calls: seq<Call>): (r: seq<Call>)
    ensures |r| <= |calls|
    ensures forall k :: 0 <= k < |r| ==> !IsQuery(r[k]) && r[k] in calls
  {
    if calls == [] then [] else (if IsQuery(calls[0]) then [] else [calls[0]]) + Changes(calls[1..])
  }

  /** The changes of two logs in sequence are the first log's changes, then the second's. */
  lemma {:induction false} ChangesAppend(a: seq<Call>, b: seq<Call>)
    ensures Changes(a + b) == Changes(a) + Changes(b)
  {
    if a == [] {
      assert a + b == b;
    } else {
      assert (a + b)[1..] == a[1..] + b;
      ChangesAppend(a[1..], b);
    }
  }

  /** A log of queries changes nothing. */
  lemma {:induction false} ChangesOfQueries(calls: seq<Call>)
    requires forall k :: 0 <= k < |calls| ==> IsQuery(calls[k])
    ensures Changes(calls) == []
  {
    if calls != [] {
      ChangesOfQueries(calls[1..]);
    }
  }

  // ---------------------------------------------------------------------------------------
  // Replies of the platform

  const NoContent := Body("", Invalid)

  function JsonBody(j: Json): Body {
    Body(Render(j), Value(j))
  }

  /**
   * A refused request.  Guzzle's exception message summarises the response, so it carries the
   * body's `message` after the status line.
   */
  function Failure(status: int, reason: string, message: string): Reply {
    var response := HttpResponse(status, reason, JsonBody(JObj([Member("message", JStr(message))])));
    var summary := reason + " response: " + message;
    if 400 <= status < 500 then Raised(ClientError("Client error: " + summary, response))
    else Raised(RequestError("Server error: " + summary, Some(response)))
  }

  function NotFound(what: string): Reply {
    Failure(404, "Not Found", what + " not found")
  }

  function PlanJson(p: Plan): Json {
    JObj([Member("planId", JInt(p.id)), Member("planName", JStr(p.name))])
  }

  /** The catalog entry with the given id, if any. */
  function PlanById(catalog: seq<Plan>, id: int): (r: Option<Plan>)
    ensures r.Some? ==> r.value in catalog && r.value.id == id
    ensures r.None? ==> forall p :: p in catalog ==> p.id != id
  {
    if catalog == [] then None
    else if catalog[0].id == id then Some(catalog[0])
    else PlanById(catalog[1..], id)
  }

  /** A site's plan: id and name when the plan is in the catalog, the bare id otherwise. */
  function SitePlanJson(catalog: seq<Plan>, id: int): Json {
    match PlanById(catalog, id)
    case Some(p) => PlanJson(p)
    case None => JObj([Member("planId", JInt(id))])
  }

  function PublishStatus(published: bool): string {
    if published then "PUBLISHED" else "UNPUBLISHED"
  }

  /** The host name the platform gives every site. */
  function DefaultDomain(siteId: string): string {
    siteId + ".dudasite.com"
  }

  function SiteJson(siteId: string, site: Site): Json {
    JObj([Member("site_name", JStr(siteId))]
      + (if site.domain.Some? then [Member("site_domain", JStr(site.domain.value))] else [])
      + [Member("site_default_domain", JStr(DefaultDomain(siteId))),
         Member("publish_status", JStr(PublishStatus(site.published)))])
  }

  function Strings(xs: seq<string>): (r: seq<Json>)
    ensures |r| == |xs| && forall k :: 0 <= k < |r| ==> r[k] == JStr(xs[k])
  {
    if xs == [] then [] else [JStr(xs[0])] + Strings(xs[1..])
  }

  function SsoUrl(userId: string, siteId: string, target: string): string {
    "https://sso.dudasite.com/" + userId + "/" + siteId + "?target=" + target
  }

  /**
   * The platform's answer to `call` in state `st`, and its next state.  A call listed in
   * `env.faults` gets the listed reply and changes nothing; an SSO request for a target in
   * `env.rejectedTargets` fails with a client error whose message names the target.
   */
  function Respond(st: State, env: Env, call: Call): (r: (Reply, State))
    ensures call in env.faults ==> r == (env.faults[call], st)
    ensures IsQuery(call) ==> r.1 == st
  {
    if call in env.faults then (env.faults[call], st)
    else match call
      case ListPlans =>
        (Replied(JsonBody(JList(seq(|st.catalog|, k requires 0 <= k < |st.catalog| => PlanJson(st.catalog[k]))))), st)
      case GetAccount(a) =>
        if a in st.accounts then (Replied(JsonBody(JObj([Member("account_name", JStr(a))]))), st)
        else (NotFound("Account"), st)
      case CreateAccount(a, _, _, _) =>
        if a in st.accounts then (Failure(400, "Bad Request", "Account already exists"), st)
        else (Replied(NoContent), st.(accounts := st.accounts + {a}))
      case GetSite(s) =>
        if s in st.sites then (Replied(JsonBody(SiteJson(s, st.sites[s]))), st) else (NotFound("Site"), st)
      case GetSitePlan(s) =>
        if s in st.sites then (Replied(JsonBody(SitePlanJson(st.catalog, st.sites[s].planId))), st)
        else (NotFound("Site"), st)
      case GetPermissions(a, s) =>
        if a in st.accounts && s in st.sites then
          var granted := if (a, s) in st.permissions then st.permissions[(a, s)] else [];
          (Replied(JsonBody(JObj([Member("permissions", JList(Strings(granted)))]))), st)
        else (NotFound("Account or site"), st)
      case SetPermissions(a, s, ps) =>
        if a in st.accounts && s in st.sites then
          (Replied(NoContent), st.(permissions := st.permissions[(a, s) := ps]))
        else (NotFound("Account or site"), st)
      case Unpublish(s) =>
        if s in st.sites then (Replied(NoContent), st.(sites := st.sites[s := st.sites[s].(published := false)]))
        else (NotFound("Site"), st)
      case Publish(s) =>
        if s in st.sites then (Replied(NoContent), st.(sites := st.sites[s := st.sites[s].(published := true)]))
        else (NotFound("Site"), st)
      case ChangePlan(s, id) =>
        if s !in st.sites then (NotFound("Site"), st)
        else if PlanById(st.catalog, id).None? then (Failure(400, "Bad Request", "Unknown plan"), st)
        else (Replied(NoContent), st.(sites := st.sites[s := st.sites[s].(planId := id)]))
      case SsoLink(u, s, t) =>
        if u !in st.accounts || s !in st.sites then (NotFound("Account or site"), st)
        else if t in env.rejectedTargets then (Failure(400, "Bad Request", "Target " + t + " is not available"), st)
        else (Replied(JsonBody(JObj([Member("url", JStr(SsoUrl(u, s, t)))]))), st)
      case DeleteSite(s) =>
        if s in st.sites then (Replied(NoContent), st.(sites := st.sites - {s})) else (NotFound("Site"), st)
      case CreateSite(lang, domain) =>
        if st.freshSiteIds == [] || st.freshSiteIds[0] in st.sites then
          (Failure(500, "Internal Server Error", "Could not create site"), st)
        else
          var id := st.freshSiteIds[0];
          var plan := if st.catalog == [] then 0 else st.catalog[0].id;
          (Replied(JsonBody(JObj([Member("site_name", JStr(id))]))),
           st.(sites := st.sites[id := Site(Some(domain), false, plan, lang)], freshSiteIds := st.freshSiteIds[1..]))
  }

  /** An unfaulted publish or unpublish of an existing site sets its publish status and nothing else. */
  lemma PublishSetsStatus(st: State, env: Env, s: string, publish: bool)
    requires s in st.sites
    requires (if publish then Publish(s) else Unpublish(s)) !in env.faults
    ensures var r := Respond(st, env, if publish then Publish(s) else Unpublish(s));
      r.0 == Replied(NoContent) && r.1 == st.(sites := st.sites[s := st.sites[s].(published := publish)])
  {
  }

  // ---------------------------------------------------------------------------------------
  // The wire form of each call (makeRequest's arguments)

  /** The path after `/api/`. */
  function Command(call: Call): string {
    match call
    case ListPlans => "sites/multiscreen/plans"
    case GetAccount(a) => "accounts/" + a
    case CreateAccount(_, _, _, _) => "accounts/create"
    case GetSite(s) => "sites/multiscreen/" + s
    case GetSitePlan(s) => "sites/multiscreen/" + s + "/plan"
    case GetPermissions(a, s) => "accounts/" + a + "/sites/" + s + "/permissions"
    case SetPermissions(a, s, _) => "accounts/" + a + "/sites/" + s + "/permissions"
    case Unpublish(s) => "sites/multiscreen/unpublish/" + s
    case Publish(s) => "sites/multiscreen/publish/" + s
    case ChangePlan(s, id) => "sites/multiscreen/" + s + "/plan/" + Php.IntToString(id)
    case SsoLink(u, _, _) => "accounts/sso/" + u + "/link"
    case DeleteSite(s) => "sites/multiscreen/" + s
    case CreateSite(_, _) => "sites/multiscreen/create"
  }

  function Verb(call: Call): Method {
    match call
    case CreateAccount(_, _, _, _) => POST
    case SetPermissions(_, _, _) => POST
    case Unpublish(_) => POST
    case Publish(_) => POST
    case ChangePlan(_, _) => POST
    case CreateSite(_, _) => POST
    case DeleteSite(_) => DELETE
    case _ => GET
  }

  /** The query parameters; only the SSO link has any. */
  function Params(call: Call): seq<(string, string)> {
    if call.SsoLink? then [("site_name", call.siteId), ("target", call.target)] else []
  }

  function Nullable(s: Option<string>): Json {
    if s.Some? then JStr(s.value) else JNull
  }

  /** The JSON body, as a list of members; empty for calls that send none. */
  function Payload(call: Call): seq<Member> {
    match call
    case CreateAccount(email, first, last, lang) =>
      [Member("account_name", JStr(email)), Member("first_name", JStr(first)), Member("last_name", Nullable(last)),
       Member("lang", JStr(lang)), Member("account_type", JStr("CUSTOMER"))]
    case SetPermissions(_, _, ps) => [Member("permissions", JList(Strings(ps)))]
    case CreateSite(lang, domain) =>
      [Member("template_id", JInt(0)), Member("lang", Nullable(lang)),
       Member("site_data", JObj([Member("site_domain", JStr(domain))]))]
    case _ => []
  }

  /**
   * The request makeRequest hands to the client: the query only when there are parameters, the
   * JSON text only when there is a body.
   */
  function RequestFor(call: Call): (r: HttpRequest)
    ensures r.verb == GET <==> IsQuery(call)
    ensures r.verb == DELETE <==> call.DeleteSite?
    ensures |r.uri| >= 5 && r.uri[..5] == "/api/"
    ensures r.query.Some? <==> call.SsoLink?
    ensures call.SsoLink? ==> r.query == Some([("site_name", call.siteId), ("target", call.target)])
    ensures r.body.Some? <==> call.CreateAccount? || call.SetPermissions? || call.CreateSite?
    ensures r.body.Some? ==> r.body.value == Render(JObj(Payload(call)))
  {
    var params := Params(call);
    var payload := Payload(call);
    HttpRequest(Verb(call), "/api/" + Command(call),
      if params != [] then Some(params) else None,
      if payload != [] then Some(Render(JObj(payload))) else None)
  }

  /** The platform as an object whose state the adapter's calls change. */
  class Platform {
    var catalog: seq<Plan>
    var accounts: set<string>
    var sites: map<string, Site>
    var permissions: map<(string, string), seq<string>>
    var freshSiteIds: seq<string>
    const env: Env
    /** Every call issued, in order. */
    var log: seq<Call>

    function Current(): State
      reads this
    {
      State(catalog, accounts, sites, permissions, freshSiteIds)
    }

    constructor (initial: State, env: Env)
      ensures Current() == initial && this.env == env
      ensures log == []
    {
      catalog, accounts, sites := initial.catalog, initial.accounts, initial.sites;
      permissions, freshSiteIds := initial.permissions, initial.freshSiteIds;
      this.env := env;
      log := [];
    }

    /** Issue one call, sent as the request its wire form prescribes: log it, answer it and move to the next state. */
    method Send(call: Call, request: HttpRequest) returns (reply: Reply)
      requires request == RequestFor(call)
      modifies this
      ensures (reply, Current()) == Respond(old(Current()), env, call)
      ensures log == old(log) + [call]
    {
      var r := Respond(Current(), env, call);
      reply := r.0;
      catalog, accounts, sites := r.1.catalog, r.1.accounts, r.1.sites;
      permissions, freshSiteIds := r.1.permissions, r.1.freshSiteIds;
      log := log + [call];
    }
  }
}

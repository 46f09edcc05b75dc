/**
 * The Duda API helper (src/Providers/Duda/Helper/DudaApi.php): what every helper operation does
 * to the platform, and the class that performs them.
 *
 * Every operation is specified by a pure "run": the result it returns, the platform state it
 * leaves and the calls it issues, in order.  The methods of class `DudaApi` are proved to
 * perform exactly their run; lemmas at the end state what the runs promise.
 */
module DudaApi {
  import opened Wrappers
  import opened Json
  import opened Remote
  import opened DudaRules
  import Php

  // ---------------------------------------------------------------------------------------
  // Runs

  /** An operation's effect: what it returns or throws, the state it leaves, the calls it issues. */
  datatype Run<T> = Run(result: Result<T, Exception>, st: State, calls: seq<Call>)

  /** makeRequest's result for a reply: the exception thrown, or the classified body. */
  function Outcome(reply: Reply): Result<Json, Exception> {
    match reply
    case Raised(e) => Err(e)
    case Replied(b) => ClassifyBody(b)
  }

  /** One makeRequest: the platform answers the call, and the answer is classified. */
  function Request(env: Env, st: State, call: Call): Run<Json> {
    RequestH(env, st, call, true)
  }

  /**
   * `Request`, reached through one extra unfolding when `folded`.  Callers of `MakeRequest`
   * thereby work with a request's run as a whole; only `MakeRequest` looks inside it.
   */
  function RequestH(env: Env, st: State, call: Call, folded: bool): Run<Json>
    decreases folded
  {
    if folded then RequestH(env, st, call, false)
    else
      var (reply, next) := Respond(st, env, call);
      Run(Outcome(reply), next, [call])
  }

  /** One makeRequest whose result is discarded (the `void` helpers). */
  function Effect(env: Env, st: State, call: Call): Run<()> {
    var r := Request(env, st, call);
    Run(if r.result.Err? then Err(r.result.error) else Ok(()), r.st, r.calls)
  }

  /** A failed first step ends the operation: its exception propagates. */
  function Raise<T, U>(r: Run<T>): Run<U>
    requires r.result.Err?
  {
    Run(Err(r.result.error), r.st, r.calls)
  }

  /** A failed step ends the operation: its exception propagates, after the calls already made. */
  function Fail<T, U>(before: seq<Call>, r: Run<T>): Run<U>
    requires r.result.Err?
  {
    Run(Err(r.result.error), r.st, before + r.calls)
  }

  /** Run `r` after calls `before` that left the state `r` starts from. */
  function After<T>(before: seq<Call>, r: Run<T>): Run<T> {
    r.(calls := before + r.calls)
  }

  // ---------------------------------------------------------------------------------------
  // The helper's operations, as runs

  /** getPlan: list the plans, then scan them for the token. */
  function GetPlanRun(env: Env, st: State, token: string): Run<Json> {
    GetPlanH(env, st, token, true)
  }

  /** `GetPlanRun`, folded as `RequestH` is. */
  function GetPlanH(env: Env, st: State, token: string, folded: bool): Run<Json>
    decreases folded
  {
    if folded then GetPlanH(env, st, token, false) else
      var q := Request(env, st, ListPlans);
      if q.result.Err? then q else q.(result := PlanResult(q.result.value, token))
  }

  /** getAccountData: an empty reply (null) breaks the `array` return type. */
  function GetAccountRun(env: Env, st: State, accountName: string): Run<Json> {
    GetAccountH(env, st, accountName, true)
  }

  /** `GetAccountRun`, folded as `RequestH` is. */
  function GetAccountH(env: Env, st: State, accountName: string, folded: bool): Run<Json>
    decreases folded
  {
    if folded then GetAccountH(env, st, accountName, false) else
      var q := Request(env, st, GetAccount(accountName));
      if q.result.Ok? && q.result.value.JNull? then q.(result := Err(TypeError)) else q
  }

  /** getInfo: account, site, site plan and permissions, in that order, then the mapping. */
  function GetInfoRun(env: Env, st: State, accountName: string, siteId: string): Run<AccountInfo> {
    var a := GetAccountRun(env, st, accountName);
    if a.result.Err? then Raise(a) else
    var s := Request(env, a.st, GetSite(siteId));
    if s.result.Err? then Fail(a.calls, s) else
    var p := Request(env, s.st, GetSitePlan(siteId));
    if p.result.Err? then Fail(a.calls + s.calls, p) else
    var g := Request(env, p.st, GetPermissions(accountName, siteId));
    if g.result.Err? then Fail(a.calls + s.calls + p.calls, g) else
    Run(MapInfo(a.result.value, siteId, s.result.value, p.result.value, g.result.value), g.st,
      a.calls + s.calls + p.calls + g.calls)
  }

  /** The account-creation call createAccount issues for a customer. */
  function NewAccountCall(email: string, name: Option<string>, languageCode: Option<string>): Call {
    var split := SplitName(name.GetOr(""));
    CreateAccount(email, split.0, split.1, SupportedLanguage(languageCode))
  }

  /** createAccount: create, then read the account back. */
  function CreateAccountRun(env: Env, st: State, email: string, name: Option<string>, languageCode: Option<string>): Run<Json> {
    CreateAccountH(env, st, email, name, languageCode, true)
  }

  /** `CreateAccountRun`, folded as `RequestH` is. */
  function CreateAccountH(env: Env, st: State, email: string, name: Option<string>, languageCode: Option<string>, folded: bool): Run<Json>
    decreases folded
  {
    if folded then CreateAccountH(env, st, email, name, languageCode, false) else
      var c := Effect(env, st, NewAccountCall(email, name, languageCode));
      if c.result.Err? then Raise(c) else After(c.calls, GetAccountRun(env, c.st, email))
  }

  /** setSitePermissions: grant the supported part of the requested permissions. */
  function SetSitePermissionsRun(env: Env, st: State, siteId: string, accountName: string, permissions: seq<string>): Run<()> {
    Effect(env, st, SetPermissions(accountName, siteId, SupportedPermissions(permissions)))
  }

  /** getSitePermissions: the `permissions` member, or none; anything but an array is a TypeError. */
  function GetSitePermissionsRun(env: Env, st: State, siteId: string, accountName: string): Run<Json> {
    var q := Request(env, st, GetPermissions(accountName, siteId));
    if q.result.Err? then q
    else
      var granted := Coalesce(Index(q.result.value, "permissions"), JList([]));
      q.(result := if IsArray(granted) then Ok(granted) else Err(TypeError))
  }

  /** changePackage: permissions first, then the plan. */
  function ChangePackageRun(env: Env, st: State, accountName: string, siteId: string, planId: int, permissions: seq<string>): Run<()> {
    ChangePackageH(env, st, accountName, siteId, planId, permissions, true)
  }

  /** `ChangePackageRun`, folded as `RequestH` is. */
  function ChangePackageH(env: Env, st: State, accountName: string, siteId: string, planId: int, permissions: seq<string>, folded: bool): Run<()>
    decreases folded
  {
    if folded then ChangePackageH(env, st, accountName, siteId, planId, permissions, false) else
      var p := SetSitePermissionsRun(env, st, siteId, accountName, permissions);
      if p.result.Err? then p else After(p.calls, Effect(env, p.st, ChangePlan(siteId, planId)))
  }

  /**
   * login: ask for an SSO link to the configured target; on a client error that names a
   * configured target, ask once more for `EDITOR`.  The link is the reply's `url`.
   */
  function LoginRun(env: Env, st: State, destination: Option<string>, userId: string, siteId: string): Run<string> {
    LoginH(env, st, destination, userId, siteId, true)
  }

  /** `LoginRun`, folded as `RequestH` is. */
  function LoginH(env: Env, st: State, destination: Option<string>, userId: string, siteId: string, folded: bool): Run<string>
    decreases folded
  {
    if folded then LoginH(env, st, destination, userId, siteId, false) else
      var first := Request(env, st, SsoLink(userId, siteId, SsoTarget(destination)));
      var response :=
        if first.result.Err? && RetriesWithEditor(destination, first.result.error)
        then After(first.calls, Request(env, first.st, SsoLink(userId, siteId, "EDITOR")))
        else first;
      if response.result.Err? then Raise(response)
      else
        match CoerceString(Index(response.result.value, "url"))
        case Some(url) => Run(Ok(url), response.st, response.calls)
        case None => Run(Err(TypeError), response.st, response.calls)
  }

  /**
   * createSite: create the site, then grant permissions, publish it and set its plan, in that
   * order; the result is the `site_name` of the creation reply.
   */
  function CreateSiteRun(env: Env, st: State, accountName: string, domain: string, planId: int,
                         lang: Option<string>, permissions: seq<string>): Run<string> {
    CreateSiteH(env, st, accountName, domain, planId, lang, permissions, true)
  }

  /** `CreateSiteRun`, folded as `RequestH` is. */
  function CreateSiteH(env: Env, st: State, accountName: string, domain: string, planId: int,
                         lang: Option<string>, permissions: seq<string>, folded: bool): Run<string>
    decreases folded
  {
    if folded then CreateSiteH(env, st, accountName, domain, planId, lang, permissions, false) else
      var c := Request(env, st, CreateSite(lang, domain));
      if c.result.Err? then Raise(c) else
      match CoerceString(Index(c.result.value, "site_name"))
      case None => Run(Err(TypeError), c.st, c.calls)
      case Some(siteId) => After(c.calls, SetUpSiteRun(env, c.st, siteId, accountName, planId, permissions))
  }

  /** What createSite does with a new site: grant permissions, publish, set the plan. */
  function SetUpSiteRun(env: Env, st: State, siteId: string, accountName: string, planId: int,
                        permissions: seq<string>): Run<string> {
    var p := SetSitePermissionsRun(env, st, siteId, accountName, permissions);
    if p.result.Err? then Raise(p) else
    var u := Effect(env, p.st, Publish(siteId));
    if u.result.Err? then Fail(p.calls, u) else
    var q := Effect(env, u.st, ChangePlan(siteId, planId));
    if q.result.Err? then Fail(p.calls + u.calls, q) else
    Run(Ok(siteId), q.st, p.calls + u.calls + q.calls)
  }

  // ---------------------------------------------------------------------------------------
  // getPlan's loop

  /** The `foreach` of getPlan: the first entry whose id or (readable) name matches. */
  method FirstMatchingPlan(entries: seq<Json>, token: string) returns (r: Scan)
    ensures r == PlanScan(entries, token, 0)
  {
    var i := 0;
    while i < |entries|
      invariant 0 <= i <= |entries|
      invariant PlanScan(entries, token, i) == PlanScan(entries, token, 0)
    {
      var entry := entries[i];
      if IdMatches(entry, token) {
        return Found(i);
      }
      var name := Index(entry, "planName");
      if IsArray(name) {
        return Unreadable(i);
      }
      if Php.ToLower(ToText(name)) == Php.ToLower(token) {
        return Found(i);
      }
      i := i + 1;
    }
    return Missing;
  }

  // ---------------------------------------------------------------------------------------
  // The helper object

  /** Calls made before two runs that agree so far keep them agreeing. */
  lemma PrefixExtended(before: seq<Call>, calls: seq<Call>, all: seq<Call>)
    requires calls <= all
    ensures before + calls <= before + all
  {
  }

  /** A log that grew twice grew once, by both parts in order: how consecutive steps' calls add up. */
  lemma LogGrowth(l0: seq<Call>, l1: seq<Call>, l2: seq<Call>)
    requires l0 <= l1 && l1 <= l2
    ensures l2 == l0 + (l1[|l0|..] + l2[|l1|..])
  {
    assert l1 == l0 + l1[|l0|..];
    assert l2 == l1 + l2[|l1|..];
  }

  /** The platform's state and log moved exactly as `run` says. */
  twostate predicate Performed<T>(remote: Platform, new run: Run<T>)
    reads remote
  {
    && remote.Current() == run.st
    && remote.log == old(remote.log) + run.calls
  }

  class DudaApi {
    /** The HTTP client, seen as the platform it talks to. */
    const remote: Platform
    const config: Configuration

    constructor (remote: Platform, config: Configuration)
      ensures this.remote == remote && this.config == config
    {
      this.remote := remote;
      this.config := config;
    }

    method MakeRequest(call: Call) returns (r: Result<Json, Exception>)
      modifies remote
      ensures var run := Request(remote.env, old(remote.Current()), call); r == run.result && Performed(remote, run)
    {
      var query: Option<seq<(string, string)>> := None;
      var params := Params(call);
      if params != [] {
        query := Some(params);
      }
      var body: Option<string> := None;
      var payload := Payload(call);
      if payload != [] {
        body := Some(Render(JObj(payload)));
      }
      var reply := remote.Send(call, HttpRequest(Verb(call), "/api/" + Command(call), query, body));
      assert RequestH(remote.env, old(remote.Current()), call, true) == RequestH(remote.env, old(remote.Current()), call, false);
      match reply
      case Raised(e) =>
        r := Err(e);
      case Replied(b) =>
        r := ClassifyBody(b);
    }

    method GetPlan(token: string) returns (r: Result<Json, Exception>)
      modifies remote
      ensures var run := GetPlanRun(remote.env, old(remote.Current()), token); r == run.result && Performed(remote, run)
    {
      assert GetPlanH(remote.env, remote.Current(), token, true) == GetPlanH(remote.env, remote.Current(), token, false);
      var plans := MakeRequest(ListPlans);
      if plans.Err? {
        return plans;
      }
      var entries := Values(plans.value);
      var scan := FirstMatchingPlan(entries, token);
      match scan
      case Found(k) =>
        r := if IsArray(entries[k]) then Ok(entries[k]) else Err(TypeError);
      case Unreadable(_) =>
        r := Err(TypeError);
      case Missing =>
        r := Err(ProvisionError("Plan '" + token + "' not found", PlanCatalog(plans.value)));
    }

    method GetAccountData(accountName: string) returns (r: Result<Json, Exception>)
      modifies remote
      ensures var run := GetAccountRun(remote.env, old(remote.Current()), accountName); r == run.result && Performed(remote, run)
    {
      assert GetAccountH(remote.env, remote.Current(), accountName, true) == GetAccountH(remote.env, remote.Current(), accountName, false);
      r := MakeRequest(GetAccount(accountName));
      if r.Ok? && r.value.JNull? {
        r := Err(TypeError);
      }
    }

    method GetInfo(accountName: string, siteId: string) returns (r: Result<AccountInfo, Exception>)
      modifies remote
      ensures var run := GetInfoRun(remote.env, old(remote.Current()), accountName, siteId); r == run.result && Performed(remote, run)
    {
      ghost var log0 := remote.log;
      var account := GetAccountData(accountName);
      if account.Err? {
        return Err(account.error);
      }
      ghost var log1 := remote.log;
      var site := MakeRequest(GetSite(siteId));
      LogGrowth(log0, log1, remote.log);
      if site.Err? {
        return Err(site.error);
      }
      ghost var log2 := remote.log;
      var plan := MakeRequest(GetSitePlan(siteId));
      LogGrowth(log0, log2, remote.log);
      if plan.Err? {
        return Err(plan.error);
      }
      ghost var log3 := remote.log;
      var permissions := MakeRequest(GetPermissions(accountName, siteId));
      LogGrowth(log0, log3, remote.log);
      if permissions.Err? {
        return Err(permissions.error);
      }
      r := MapInfo(account.value, siteId, site.value, plan.value, permissions.value);
    }

    method CreateAccount(email: string, name: Option<string>, languageCode: Option<string>) returns (r: Result<Json, Exception>)
      modifies remote
      ensures var run := CreateAccountRun(remote.env, old(remote.Current()), email, name, languageCode);
        r == run.result && Performed(remote, run)
    {
      assert CreateAccountH(remote.env, remote.Current(), email, name, languageCode, true)
          == CreateAccountH(remote.env, remote.Current(), email, name, languageCode, false);
      var split := SplitName(name.GetOr(""));
      ghost var log0 := remote.log;
      var created := MakeRequest(Remote.CreateAccount(email, split.0, split.1, SupportedLanguage(languageCode)));
      if created.Err? {
        return created;
      }
      ghost var log1 := remote.log;
      r := GetAccountData(email);
      LogGrowth(log0, log1, remote.log);
    }

    /** suspend: unpublish the site. */
    method Suspend(siteId: string) returns (r: Result<(), Exception>)
      modifies remote
      ensures var run := Effect(remote.env, old(remote.Current()), Unpublish(siteId)); r == run.result && Performed(remote, run)
    {
      var reply := MakeRequest(Unpublish(siteId));
      r := if reply.Err? then Err(reply.error) else Ok(());
    }

    /** unsuspend: publish the site. */
    method Unsuspend(siteId: string) returns (r: Result<(), Exception>)
      modifies remote
      ensures var run := Effect(remote.env, old(remote.Current()), Publish(siteId)); r == run.result && Performed(remote, run)
    {
      var reply := MakeRequest(Publish(siteId));
      r := if reply.Err? then Err(reply.error) else Ok(());
    }

    /** terminate: delete the site. */
    method Terminate(siteId: string) returns (r: Result<(), Exception>)
      modifies remote
      ensures var run := Effect(remote.env, old(remote.Current()), DeleteSite(siteId)); r == run.result && Performed(remote, run)
    {
      var reply := MakeRequest(DeleteSite(siteId));
      r := if reply.Err? then Err(reply.error) else Ok(());
    }

    /** changePlan: move the site to the plan. */
    method ChangePlan(siteId: string, planId: int) returns (r: Result<(), Exception>)
      modifies remote
      ensures var run := Effect(remote.env, old(remote.Current()), Remote.ChangePlan(siteId, planId)); r == run.result && Performed(remote, run)
    {
      var reply := MakeRequest(Remote.ChangePlan(siteId, planId));
      r := if reply.Err? then Err(reply.error) else Ok(());
    }

    method SetSitePermissions(siteId: string, accountName: string, permissions: seq<string>) returns (r: Result<(), Exception>)
      modifies remote
      ensures var run := SetSitePermissionsRun(remote.env, old(remote.Current()), siteId, accountName, permissions);
        r == run.result && Performed(remote, run)
    {
      var reply := MakeRequest(SetPermissions(accountName, siteId, SupportedPermissions(permissions)));
      r := if reply.Err? then Err(reply.error) else Ok(());
    }

    method GetSitePermissions(siteId: string, accountName: string) returns (r: Result<Json, Exception>)
      modifies remote
      ensures var run := GetSitePermissionsRun(remote.env, old(remote.Current()), siteId, accountName);
        r == run.result && Performed(remote, run)
    {
      var response := MakeRequest(GetPermissions(accountName, siteId));
      if response.Err? {
        return response;
      }
      var granted := Coalesce(Index(response.value, "permissions"), JList([]));
      r := if IsArray(granted) then Ok(granted) else Err(TypeError);
    }

    method ChangePackage(accountName: string, siteId: string, planId: int, permissions: seq<string>) returns (r: Result<(), Exception>)
      modifies remote
      ensures var run := ChangePackageRun(remote.env, old(remote.Current()), accountName, siteId, planId, permissions);
        r == run.result && Performed(remote, run)
    {
      assert ChangePackageH(remote.env, remote.Current(), accountName, siteId, planId, permissions, true)
          == ChangePackageH(remote.env, remote.Current(), accountName, siteId, planId, permissions, false);
      ghost var log0 := remote.log;
      r := SetSitePermissions(siteId, accountName, permissions);
      if r.Err? {
        return;
      }
      ghost var log1 := remote.log;
      r := ChangePlan(siteId, planId);
      LogGrowth(log0, log1, remote.log);
    }

    method Login(userId: string, siteId: string) returns (r: Result<string, Exception>)
      modifies remote
      ensures var run := LoginRun(remote.env, old(remote.Current()), config.ssoTargetDestination, userId, siteId);
        r == run.result && Performed(remote, run)
    {
      assert LoginH(remote.env, remote.Current(), config.ssoTargetDestination, userId, siteId, true)
          == LoginH(remote.env, remote.Current(), config.ssoTargetDestination, userId, siteId, false);
      var destination := config.ssoTargetDestination;
      ghost var log0 := remote.log;
      var response := MakeRequest(SsoLink(userId, siteId, SsoTarget(destination)));
      if response.Err? && RetriesWithEditor(destination, response.error) {
        ghost var log1 := remote.log;
        response := MakeRequest(SsoLink(userId, siteId, "EDITOR"));
        LogGrowth(log0, log1, remote.log);
      }
      if response.Err? {
        return Err(response.error);
      }
      match CoerceString(Index(response.value, "url"))
      case Some(url) =>
        r := Ok(url);
      case None =>
        r := Err(TypeError);
    }

    method CreateSite(accountName: string, domain: string, planId: int, lang: Option<string>, permissions: seq<string>)
      returns (r: Result<string, Exception>)
      modifies remote
      ensures var run := CreateSiteRun(remote.env, old(remote.Current()), accountName, domain, planId, lang, permissions);
        r == run.result && Performed(remote, run)
    {
      assert CreateSiteH(remote.env, remote.Current(), accountName, domain, planId, lang, permissions, true)
          == CreateSiteH(remote.env, remote.Current(), accountName, domain, planId, lang, permissions, false);
      ghost var log0 := remote.log;
      var site := MakeRequest(Remote.CreateSite(lang, domain));
      if site.Err? {
        return Err(site.error);
      }
      var name := CoerceString(Index(site.value, "site_name"));
      if name.None? {
        return Err(TypeError);
      }
      ghost var log1 := remote.log;
      r := SetUpSite(name.value, accountName, planId, permissions);
      LogGrowth(log0, log1, remote.log);
    }

    /** The second half of createSite, for the site it has just created. */
    method SetUpSite(siteId: string, accountName: string, planId: int, permissions: seq<string>)
      returns (r: Result<string, Exception>)
      modifies remote
      ensures var run := SetUpSiteRun(remote.env, old(remote.Current()), siteId, accountName, planId, permissions);
        r == run.result && Performed(remote, run)
    {
      ghost var log0 := remote.log;
      var granted := SetSitePermissions(siteId, accountName, permissions);
      if granted.Err? {
        return Err(granted.error);
      }
      ghost var log1 := remote.log;
      var published := Unsuspend(siteId);
      LogGrowth(log0, log1, remote.log);
      if published.Err? {
        return Err(published.error);
      }
      ghost var log2 := remote.log;
      var planned := ChangePlan(siteId, planId);
      LogGrowth(log0, log2, remote.log);
      if planned.Err? {
        return Err(planned.error);
      }
      r := Ok(siteId);
    }
  }

  // ---------------------------------------------------------------------------------------
  // What the runs promise

  /** One request issues exactly its call, answered as the platform answers it; a query changes nothing. */
  lemma RequestIssuesItsCall(env: Env, st: State, call: Call)
    ensures var q := Request(env, st, call);
      && q.calls == [call]
      && (q.st, q.result) == (Respond(st, env, call).1, Outcome(Respond(st, env, call).0))
      && (IsQuery(call) ==> q.st == st)
  {
    assert RequestH(env, st, call, true) == RequestH(env, st, call, false);
  }

  /**
   * getInfo only reads: it leaves the platform as it was and issues a prefix of its four
   * queries, all four exactly when it succeeds.
   */
  lemma GetInfoOnlyReads(env: Env, st: State, accountName: string, siteId: string)
    ensures var run := GetInfoRun(env, st, accountName, siteId);
      var all := [GetAccount(accountName), GetSite(siteId), GetSitePlan(siteId), GetPermissions(accountName, siteId)];
      && run.st == st
      && 1 <= |run.calls| && run.calls <= all
      && (run.result.Ok? ==> run.calls == all)
  {
    RequestIssuesItsCall(env, st, GetAccount(accountName));
    RequestIssuesItsCall(env, st, GetSite(siteId));
    RequestIssuesItsCall(env, st, GetSitePlan(siteId));
    RequestIssuesItsCall(env, st, GetPermissions(accountName, siteId));
  }

  /**
   * getPlan against the platform: an empty catalog is sent as `[]`, which is falsy, so the
   * request itself fails with the unknown error; otherwise the result is the scan of the catalog
   * as `PlanFromCatalog` describes it.  Either way one query, and no change.
   */
  lemma GetPlanAgainstPlatform(env: Env, st: State, token: string)
    requires ListPlans !in env.faults
    ensures var run := GetPlanRun(env, st, token);
      && run.calls == [ListPlans] && run.st == st
      && (st.catalog == [] ==>
            run.result == Err(ProvisionError("Unknown Provider API Error", RawResponse(Render(JList([]))))))
      && (st.catalog != [] ==> run.result == PlanResult(JList(CatalogJson(st.catalog)), token))
  {
    assert GetPlanH(env, st, token, true) == GetPlanH(env, st, token, false);
    RequestIssuesItsCall(env, st, ListPlans);
    var listed := seq(|st.catalog|, k requires 0 <= k < |st.catalog| => PlanJson(st.catalog[k]));
    assert listed == CatalogJson(st.catalog);
    assert Respond(st, env, ListPlans) == (Replied(JsonBody(JList(listed))), st);
  }

  /**
   * getInfo reports the publish status the platform holds for the site, unless the site request
   * is answered otherwise than the platform would.
   */
  lemma GetInfoSeesPublishStatus(env: Env, st: State, accountName: string, siteId: string)
    requires GetSite(siteId) !in env.faults
    ensures var run := GetInfoRun(env, st, accountName, siteId);
      run.result.Ok? ==> siteId in st.sites && run.result.value.isPublished == st.sites[siteId].published
  {
    var run := GetInfoRun(env, st, accountName, siteId);
    assert GetAccountH(env, st, accountName, true) == GetAccountH(env, st, accountName, false);
    RequestIssuesItsCall(env, st, GetAccount(accountName));
    SiteQueryAnswered(env, st, siteId);
    if run.result.Ok? {
      SiteJsonFields(siteId, st.sites[siteId]);
    }
  }

  /** An unforced site query answers with the site as the platform holds it. */
  lemma SiteQueryAnswered(env: Env, st: State, siteId: string)
    requires GetSite(siteId) !in env.faults
    ensures var s := Request(env, st, GetSite(siteId));
      s.result.Ok? ==> siteId in st.sites && s.result.value == SiteJson(siteId, st.sites[siteId])
  {
    RequestIssuesItsCall(env, st, GetSite(siteId));
    if siteId in st.sites {
      JsonBodyAccepted(SiteJson(siteId, st.sites[siteId]).members);
    }
  }

  /**
   * createAccount's body: the email as account name, the name split at its first space (no
   * last name without a space), the negotiated language and the CUSTOMER account type.
   */
  lemma CreateAccountBody(email: string, name: Option<string>, languageCode: Option<string>)
    ensures var body := Payload(NewAccountCall(email, name, languageCode));
      var split := SplitName(name.GetOr(""));
      && Lookup(body, "account_name") == Some(JStr(email))
      && Lookup(body, "first_name") == Some(JStr(split.0))
      && Lookup(body, "last_name") == Some(if split.1.Some? then JStr(split.1.value) else JNull)
  {
    var split := SplitName(name.GetOr(""));
    AccountMembers(JStr(email), JStr(split.0), Nullable(split.1), JStr(SupportedLanguage(languageCode)));
  }

  /** createAccount's body also asks for the negotiated language and the CUSTOMER account type. */
  lemma CreateAccountBodyKind(email: string, name: Option<string>, languageCode: Option<string>)
    ensures var body := Payload(NewAccountCall(email, name, languageCode));
      && Lookup(body, "lang") == Some(JStr(SupportedLanguage(languageCode)))
      && Lookup(body, "account_type") == Some(JStr("CUSTOMER"))
  {
    var split := SplitName(name.GetOr(""));
    AccountMembers(JStr(email), JStr(split.0), Nullable(split.1), JStr(SupportedLanguage(languageCode)));
  }

  /** Each key of an account-creation body names its own member. */
  lemma AccountMembers(email: Json, first: Json, last: Json, lang: Json)
    ensures var body := [Member("account_name", email), Member("first_name", first), Member("last_name", last),
                         Member("lang", lang), Member("account_type", JStr("CUSTOMER"))];
      && Lookup(body, "account_name") == Some(email)
      && Lookup(body, "first_name") == Some(first)
      && Lookup(body, "last_name") == Some(last)
      && Lookup(body, "lang") == Some(lang)
      && Lookup(body, "account_type") == Some(JStr("CUSTOMER"))
  {
    var body := [Member("account_name", email), Member("first_name", first), Member("last_name", last),
                 Member("lang", lang), Member("account_type", JStr("CUSTOMER"))];
    LookupAt(body, 0);
    LookupAt(body, 1);
    LookupAt(body, 2);
    LookupAt(body, 3);
    LookupAt(body, 4);
  }

  /** createAccount creates the account, then reads back the account named by the email. */
  lemma CreateAccountCalls(env: Env, st: State, email: string, name: Option<string>, languageCode: Option<string>)
    ensures var run := CreateAccountRun(env, st, email, name, languageCode);
      && 1 <= |run.calls|
      && run.calls <= [NewAccountCall(email, name, languageCode), GetAccount(email)]
      && (run.result.Ok? ==> |run.calls| == 2)
  {
    assert CreateAccountH(env, st, email, name, languageCode, true) == CreateAccountH(env, st, email, name, languageCode, false);
    var c := Request(env, st, NewAccountCall(email, name, languageCode));
    RequestIssuesItsCall(env, st, NewAccountCall(email, name, languageCode));
    RequestIssuesItsCall(env, c.st, GetAccount(email));
  }

  /**
   * login asks for the configured target (or EDITOR) and, only after a client error that names
   * the configured target, once more for EDITOR; any other failure of the first request is
   * rethrown as it is.  It never changes the platform.
   */
  lemma LoginAsksAtMostTwice(env: Env, st: State, destination: Option<string>, userId: string, siteId: string)
    ensures var run := LoginRun(env, st, destination, userId, siteId);
      var first := Request(env, st, SsoLink(userId, siteId, SsoTarget(destination)));
      var retried := first.result.Err? && RetriesWithEditor(destination, first.result.error);
      && run.st == st
      && (retried ==> run.calls == [SsoLink(userId, siteId, SsoTarget(destination)), SsoLink(userId, siteId, "EDITOR")])
      && (!retried ==> run.calls == [SsoLink(userId, siteId, SsoTarget(destination))])
      && (first.result.Err? && !retried ==> run.result == Err(first.result.error))
  {
    assert LoginH(env, st, destination, userId, siteId, true) == LoginH(env, st, destination, userId, siteId, false);
    RequestIssuesItsCall(env, st, SsoLink(userId, siteId, SsoTarget(destination)));
    RequestIssuesItsCall(env, st, SsoLink(userId, siteId, "EDITOR"));
  }

  /**
   * The retry takes effect: when the platform refuses the configured target but offers EDITOR,
   * login asks twice and returns the EDITOR link.
   */
  lemma LoginFallsBackToEditor(env: Env, st: State, destination: string, userId: string, siteId: string)
    requires Php.Truthy(destination) && destination in env.rejectedTargets && "EDITOR" !in env.rejectedTargets
    requires userId in st.accounts && siteId in st.sites
    requires SsoLink(userId, siteId, destination) !in env.faults && SsoLink(userId, siteId, "EDITOR") !in env.faults
    ensures var run := LoginRun(env, st, Some(destination), userId, siteId);
      && run.calls == [SsoLink(userId, siteId, destination), SsoLink(userId, siteId, "EDITOR")]
      && run.result == Ok(SsoUrl(userId, siteId, "EDITOR"))
  {
    assert LoginH(env, st, Some(destination), userId, siteId, true) == LoginH(env, st, Some(destination), userId, siteId, false);
    RejectedTargetRetried(env, st, destination, userId, siteId);
    EditorLinkServed(env, st, userId, siteId);
  }

  /**
   * The usual path: when the platform offers the configured target (EDITOR when none is
   * configured), login asks once, changes nothing and returns the link the reply's `url` names.
   */
  lemma LoginServesLink(env: Env, st: State, destination: Option<string>, userId: string, siteId: string)
    requires SsoTarget(destination) !in env.rejectedTargets
    requires userId in st.accounts && siteId in st.sites
    requires SsoLink(userId, siteId, SsoTarget(destination)) !in env.faults
    ensures var run := LoginRun(env, st, destination, userId, siteId);
      && run.st == st
      && run.calls == [SsoLink(userId, siteId, SsoTarget(destination))]
      && run.result == Ok(SsoUrl(userId, siteId, SsoTarget(destination)))
  {
    assert LoginH(env, st, destination, userId, siteId, true) == LoginH(env, st, destination, userId, siteId, false);
    RequestIssuesItsCall(env, st, SsoLink(userId, siteId, SsoTarget(destination)));
    var link := [Member("url", JStr(SsoUrl(userId, siteId, SsoTarget(destination))))];
    JsonBodyAccepted(link);
    LookupAt(link, 0);
  }

  /** A refused configured target is a client error that names it, so login retries. */
  lemma RejectedTargetRetried(env: Env, st: State, destination: string, userId: string, siteId: string)
    requires Php.Truthy(destination) && destination in env.rejectedTargets
    requires userId in st.accounts && siteId in st.sites
    requires SsoLink(userId, siteId, destination) !in env.faults
    ensures var first := Request(env, st, SsoLink(userId, siteId, destination));
      && first.calls == [SsoLink(userId, siteId, destination)] && first.st == st
      && first.result.Err? && RetriesWithEditor(Some(destination), first.result.error)
  {
    var call := SsoLink(userId, siteId, destination);
    var message := "Target " + destination + " is not available";
    assert Respond(st, env, call) == (Failure(400, "Bad Request", message), st);
    RequestIssuesItsCall(env, st, call);
    var first := Request(env, st, call);
    assert first.result.error.message == "Client error: " + ("Bad Request" + " response: " + message);
    SummaryNames("Client error: ", "Bad Request", "Target ", destination, " is not available");
  }

  /** A message built around a non-empty piece contains it. */
  lemma SummaryNames(lead: string, reason: string, before: string, needle: string, after: string)
    requires needle != []
    ensures Php.Contains(lead + (reason + " response: " + (before + needle + after)), needle)
  {
    var text := lead + (reason + " response: " + (before + needle + after));
    var k := |lead| + |reason| + |" response: "| + |before|;
    assert Php.OccursAt(text, needle, k) by {
      assert text[k..k + |needle|] == needle;
    }
    Php.ContainsOccurs(text, needle);
  }

  /** An EDITOR link the platform offers comes back as the reply's `url`. */
  lemma EditorLinkServed(env: Env, st: State, userId: string, siteId: string)
    requires "EDITOR" !in env.rejectedTargets
    requires userId in st.accounts && siteId in st.sites
    requires SsoLink(userId, siteId, "EDITOR") !in env.faults
    ensures var q := Request(env, st, SsoLink(userId, siteId, "EDITOR"));
      && q.calls == [SsoLink(userId, siteId, "EDITOR")] && q.st == st
      && q.result.Ok? && Index(q.result.value, "url") == JStr(SsoUrl(userId, siteId, "EDITOR"))
  {
    RequestIssuesItsCall(env, st, SsoLink(userId, siteId, "EDITOR"));
    var link := [Member("url", JStr(SsoUrl(userId, siteId, "EDITOR")))];
    JsonBodyAccepted(link);
    LookupAt(link, 0);
  }

  /** changePackage grants the supported permissions, then changes the plan, and stops at the first failure. */
  lemma ChangePackageOrder(env: Env, st: State, accountName: string, siteId: string, planId: int, permissions: seq<string>)
    ensures var run := ChangePackageRun(env, st, accountName, siteId, planId, permissions);
      var all := [SetPermissions(accountName, siteId, SupportedPermissions(permissions)), ChangePlan(siteId, planId)];
      && 1 <= |run.calls| && run.calls <= all
      && (run.result.Ok? ==> run.calls == all)
  {
    assert ChangePackageH(env, st, accountName, siteId, planId, permissions, true)
        == ChangePackageH(env, st, accountName, siteId, planId, permissions, false);
    var p := Request(env, st, SetPermissions(accountName, siteId, SupportedPermissions(permissions)));
    RequestIssuesItsCall(env, st, SetPermissions(accountName, siteId, SupportedPermissions(permissions)));
    RequestIssuesItsCall(env, p.st, ChangePlan(siteId, planId));
  }

  /** The second half of createSite: permissions, publish, plan, stopping at the first failure. */
  lemma SetUpSiteOrder(env: Env, st: State, siteId: string, accountName: string, planId: int, permissions: seq<string>)
    ensures var run := SetUpSiteRun(env, st, siteId, accountName, planId, permissions);
      var all := [SetPermissions(accountName, siteId, SupportedPermissions(permissions)), Publish(siteId), ChangePlan(siteId, planId)];
      && 1 <= |run.calls| && run.calls <= all
      && (run.result.Ok? ==> run.calls == all && run.result.value == siteId)
  {
    var p := Request(env, st, SetPermissions(accountName, siteId, SupportedPermissions(permissions)));
    RequestIssuesItsCall(env, st, SetPermissions(accountName, siteId, SupportedPermissions(permissions)));
    var u := Request(env, p.st, Publish(siteId));
    RequestIssuesItsCall(env, p.st, Publish(siteId));
    RequestIssuesItsCall(env, u.st, ChangePlan(siteId, planId));
  }

  /**
   * createSite creates the site, then grants permissions on it, publishes it and sets its plan,
   * in that order, stopping at the first failure; on success it returns the `site_name` of the
   * creation reply.
   */
  lemma CreateSiteOrder(env: Env, st: State, accountName: string, domain: string, planId: int,
                        lang: Option<string>, permissions: seq<string>)
    ensures var run := CreateSiteRun(env, st, accountName, domain, planId, lang, permissions);
      var c := Request(env, st, CreateSite(lang, domain));
      && 1 <= |run.calls| && run.calls[0] == CreateSite(lang, domain)
      && (|run.calls| > 1 || run.result.Ok? ==>
            c.result.Ok? && CoerceString(Index(c.result.value, "site_name")).Some?
            && var siteId := CoerceString(Index(c.result.value, "site_name")).value;
            var later := [SetPermissions(accountName, siteId, SupportedPermissions(permissions)), Publish(siteId), ChangePlan(siteId, planId)];
            && run.calls <= [CreateSite(lang, domain)] + later
            && (run.result.Ok? ==> run.calls == [CreateSite(lang, domain)] + later && run.result.value == siteId))
  {
    assert CreateSiteH(env, st, accountName, domain, planId, lang, permissions, true)
        == CreateSiteH(env, st, accountName, domain, planId, lang, permissions, false);
    var c := Request(env, st, CreateSite(lang, domain));
    RequestIssuesItsCall(env, st, CreateSite(lang, domain));
    if c.result.Ok? && CoerceString(Index(c.result.value, "site_name")).Some? {
      var siteId := CoerceString(Index(c.result.value, "site_name")).value;
      var rest := SetUpSiteRun(env, c.st, siteId, accountName, planId, permissions);
      SetUpSiteOrder(env, c.st, siteId, accountName, planId, permissions);
      PrefixExtended(c.calls, rest.calls,
                     [SetPermissions(accountName, siteId, SupportedPermissions(permissions)), Publish(siteId), ChangePlan(siteId, planId)]);
    }
  }
}

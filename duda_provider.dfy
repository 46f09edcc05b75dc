/**
 * The Duda provider (src/Providers/Duda/Provider.php): the lifecycle operations the provisioning
 * framework calls, built on the API helper.  As for the helper, every operation is specified by a
 * pure run and performed by a method of class `Provider`; the framework's `errorResult` throws a
 * provision error, and every exception an operation raises passes through `HandleException`.
 */
module DudaProvider {
  import opened Wrappers
  import opened Json
  import opened Remote
  import opened DudaRules
  import opened DudaApi
  import Php

  // ---------------------------------------------------------------------------------------
  // Permissions

  /** The permissions a site gets when neither the order nor the configuration names any. */
  const DefaultPermissions: seq<string> := ["PUBLISH", "REPUBLISH", "STATS_TAB", "EDIT", "LIMITED_EDITING", "RESET"]

  /** The permissions a FREE plan must not get: publishing would upgrade the site implicitly. */
  const PublishPermissions: seq<string> := ["PUBLISH", "REPUBLISH"]

  /** `array_values(array_diff(ps, drop))`: the entries of `ps` not in `drop`, in order. */
  function Without(ps: seq<string>, drop: seq<string>): (r: seq<string>)
    ensures |r| <= |ps|
  {
    if ps == [] then [] else (if ps[0] in drop then [] else [ps[0]]) + Without(ps[1..], drop)
  }

  /** An entry stays exactly when it is not one of those removed. */
  lemma {:induction false} WithoutMembers(ps: seq<string>, drop: seq<string>, x: string)
    ensures x in Without(ps, drop) <==> x in ps && x !in drop
  {
    if ps != [] {
      WithoutMembers(ps[1..], drop, x);
      assert ps == [ps[0]] + ps[1..];
    }
  }

  /** Removing what is not there changes nothing. */
  lemma {:induction false} WithoutNothing(ps: seq<string>, drop: seq<string>)
    requires forall k :: 0 <= k < |ps| ==> ps[k] !in drop
    ensures Without(ps, drop) == ps
  {
    if ps != [] {
      WithoutNothing(ps[1..], drop);
      assert [ps[0]] + ps[1..] == ps;
    }
  }

  /** Removal keeps the order of what stays: removing from `a + b` removes from each part. */
  lemma {:induction false} WithoutAppend(a: seq<string>, b: seq<string>, drop: seq<string>)
    ensures Without(a + b, drop) == Without(a, drop) + Without(b, drop)
  {
    if a == [] {
      assert a + b == b;
    } else {
      WithoutAppend(a[1..], b, drop);
      var head := if a[0] in drop then [] else [a[0]];
      assert (a + b)[0] == a[0];
      assert (a + b)[1..] == a[1..] + b;
      assert Without(a + b, drop) == head + (Without(a[1..], drop) + Without(b, drop));
      assert head + (Without(a[1..], drop) + Without(b, drop)) == (head + Without(a[1..], drop)) + Without(b, drop);
    }
  }

  /**
   * detDefaultPermissions: the configured defaults (when there are any) or the built-in six;
   * for a plan named FREE, in any case, without PUBLISH and REPUBLISH.
   */
  function DetDefaultPermissions(config: Configuration, planName: string): (r: seq<string>)
    ensures Php.ToUpper(planName) == "FREE" ==> "PUBLISH" !in r && "REPUBLISH" !in r
    ensures forall x :: x in r ==> x in DefaultPermissions || (config.defaultPermissions.Some? && x in config.defaultPermissions.value)
  {
    var permissions :=
      if config.defaultPermissions.Some? && config.defaultPermissions.value != []
      then config.defaultPermissions.value else DefaultPermissions;
    WithoutKeepsOnly(permissions, PublishPermissions);
    if Php.ToUpper(planName) == "FREE" then Without(permissions, PublishPermissions) else permissions
  }

  /** Every entry left after a removal was there before, and is not one of those removed. */
  lemma WithoutKeepsOnly(ps: seq<string>, drop: seq<string>)
    ensures forall x :: x in Without(ps, drop) ==> x in ps && x !in drop
  {
    forall x | x in Without(ps, drop) ensures x in ps && x !in drop {
      WithoutMembers(ps, drop, x);
    }
  }

  /**
   * The defaults lose exactly PUBLISH and REPUBLISH on a FREE plan (keeping the order of the
   * rest), and stay as they are on any other plan.
   */
  lemma DefaultsByPlan(config: Configuration, planName: string)
    ensures var base := if config.defaultPermissions.Some? && config.defaultPermissions.value != []
                        then config.defaultPermissions.value else DefaultPermissions;
      var r := DetDefaultPermissions(config, planName);
      && (Php.ToUpper(planName) == "FREE" ==>
            && r == Without(base, PublishPermissions)
            && (forall x :: multiset(r)[x] == if x == "PUBLISH" || x == "REPUBLISH" then 0 else multiset(base)[x])
            && forall x :: x in r <==> x in base && x != "PUBLISH" && x != "REPUBLISH")
      && (Php.ToUpper(planName) != "FREE" ==> r == base)
  {
    var base := if config.defaultPermissions.Some? && config.defaultPermissions.value != []
                then config.defaultPermissions.value else DefaultPermissions;
    if Php.ToUpper(planName) == "FREE" {
      PublishRemoved(base);
    }
  }

  /** Removing PUBLISH and REPUBLISH drops every copy of the two, and keeps every other entry and its copies. */
  lemma PublishRemoved(ps: seq<string>)
    ensures var r := Without(ps, PublishPermissions);
      && (forall x :: multiset(r)[x] == if x == "PUBLISH" || x == "REPUBLISH" then 0 else multiset(ps)[x])
      && forall x :: x in r <==> x in ps && x != "PUBLISH" && x != "REPUBLISH"
  {
    forall x ensures (x in Without(ps, PublishPermissions) <==> x in ps && x !in PublishPermissions)
                  && multiset(Without(ps, PublishPermissions))[x] == if x in PublishPermissions then 0 else multiset(ps)[x] {
      WithoutMembers(ps, PublishPermissions, x);
      WithoutCount(ps, PublishPermissions, x);
    }
  }

  /** Removal drops every copy of a removed entry, and keeps every copy of the others. */
  lemma {:induction false} WithoutCount(ps: seq<string>, drop: seq<string>, x: string)
    ensures multiset(Without(ps, drop))[x] == if x in drop then 0 else multiset(ps)[x]
  {
    if ps != [] {
      WithoutCount(ps[1..], drop, x);
      assert ps == [ps[0]] + ps[1..];
      var head := if ps[0] in drop then [] else [ps[0]];
      assert multiset(Without(ps, drop)) == multiset(head) + multiset(Without(ps[1..], drop));
    }
  }

  /** With nothing configured, a FREE plan gets the four built-in permissions that do not publish. */
  lemma FreePlanDefaults(config: Configuration, planName: string)
    requires config.defaultPermissions.None? || config.defaultPermissions.value == []
    requires Php.ToUpper(planName) == "FREE"
    ensures DetDefaultPermissions(config, planName) == ["STATS_TAB", "EDIT", "LIMITED_EDITING", "RESET"]
  {
    assert DetDefaultPermissions(config, planName) == Without(DefaultPermissions, PublishPermissions);
    BuiltInsWithoutPublish();
  }

  /** The built-in defaults without PUBLISH and REPUBLISH are the other four, in order. */
  lemma BuiltInsWithoutPublish()
    ensures Without(DefaultPermissions, PublishPermissions) == ["STATS_TAB", "EDIT", "LIMITED_EDITING", "RESET"]
  {
    WithoutAppend(["PUBLISH", "REPUBLISH"], ["STATS_TAB", "EDIT", "LIMITED_EDITING", "RESET"], PublishPermissions);
    assert DefaultPermissions == ["PUBLISH", "REPUBLISH"] + ["STATS_TAB", "EDIT", "LIMITED_EDITING", "RESET"];
    WithoutNothing(["STATS_TAB", "EDIT", "LIMITED_EDITING", "RESET"], PublishPermissions);
  }

  /**
   * getPermissions: the order's comma-separated list without its falsy entries; only when that
   * leaves nothing, the defaults for the plan.
   */
  function PermissionsFor(config: Configuration, permissions: Option<string>, planName: string): (r: seq<string>)
    ensures forall x :: x in Php.Explode(',', permissions.GetOr("")) && Php.Truthy(x) ==> x in r
    ensures forall x :: x in r ==>
      (x in Php.Explode(',', permissions.GetOr("")) && Php.Truthy(x)) || x in DetDefaultPermissions(config, planName)
  {
    var listed := DropFalsy(Php.Explode(',', permissions.GetOr("")));
    if listed != [] then listed else DetDefaultPermissions(config, planName)
  }

  lemma {:induction false} DropFalsyKeepsTruthy(ps: seq<string>)
    requires forall k :: 0 <= k < |ps| ==> Php.Truthy(ps[k])
    ensures DropFalsy(ps) == ps
  {
    if ps != [] {
      DropFalsyKeepsTruthy(ps[1..]);
      assert [ps[0]] + ps[1..] == ps;
    }
  }

  /**
   * A list the order spells out is taken as it is: not trimmed, not upper-cased, not checked
   * against the supported tokens, and never replaced by the defaults.
   */
  lemma ListedPermissionsKept(config: Configuration, listed: seq<string>, planName: string)
    requires |listed| >= 1
    requires forall k :: 0 <= k < |listed| ==> ',' !in listed[k] && Php.Truthy(listed[k])
    ensures PermissionsFor(config, Some(Php.Implode(',', listed)), planName) == listed
  {
    Php.ExplodeImplode(',', listed);
    DropFalsyKeepsTruthy(listed);
  }

  // The configured defaults.  The configuration accepts `default_permissions` only as a string
  // (a comma-separated list), while detDefaultPermissions treats it as an array.  `Configuration`
  // holds the list that string stands for; the two functions below set the code as written
  // beside that reading.

  /**
   * detDefaultPermissions as written, given the configured string: a truthy string reaches
   * `array_diff` (FREE plans) or the `array` return type (other plans), both TypeErrors under
   * strict types; a falsy one falls back to the built-in six.
   */
  function DetDefaultPermissionsAsWritten(configured: Option<string>, planName: string): (r: Result<seq<string>, Exception>)
    ensures r.Err? <==> configured.Some? && Php.Truthy(configured.value)
    ensures r.Err? ==> r.error == TypeError
    ensures r.Ok? ==> r.value == IntendedDefaults(None, planName)
  {
    if configured.Some? && Php.Truthy(configured.value) then Err(TypeError)
    else
      assert Php.Explode(',', "") == [""];
      assert DropFalsy([""]) == [];
      Ok(if Php.ToUpper(planName) == "FREE" then Without(DefaultPermissions, PublishPermissions) else DefaultPermissions)
  }

  /** detDefaultPermissions as evidently intended: the configured string read as a comma-separated list. */
  function IntendedDefaults(configured: Option<string>, planName: string): (r: seq<string>)
    ensures Php.ToUpper(planName) == "FREE" ==> "PUBLISH" !in r && "REPUBLISH" !in r
    ensures forall x :: x in r ==> x in DefaultPermissions || (x in Php.Explode(',', configured.GetOr("")) && Php.Truthy(x))
  {
    var listed := DropFalsy(Php.Explode(',', configured.GetOr("")));
    var base := if listed != [] then listed else DefaultPermissions;
    WithoutKeepsOnly(base, PublishPermissions);
    if Php.ToUpper(planName) == "FREE" then Without(base, PublishPermissions) else base
  }

  /** The intended reading is what the model's list-valued configuration gives. */
  lemma IntendedDefaultsAgree(config: Configuration, configured: Option<string>, planName: string)
    requires config.defaultPermissions == Some(DropFalsy(Php.Explode(',', configured.GetOr(""))))
    ensures IntendedDefaults(configured, planName) == DetDefaultPermissions(config, planName)
  {
  }

  /** Under the intended reading, a configured list is used entry for entry on a plan that is not FREE. */
  lemma ConfiguredListHonoured(listed: seq<string>, planName: string)
    requires |listed| >= 1
    requires forall k :: 0 <= k < |listed| ==> ',' !in listed[k] && Php.Truthy(listed[k])
    requires Php.ToUpper(planName) != "FREE"
    ensures IntendedDefaults(Some(Php.Implode(',', listed)), planName) == listed
  {
    Php.ExplodeImplode(',', listed);
    DropFalsyKeepsTruthy(listed);
  }

  /**
   * The discrepancy on one input: configuring `EDIT,STATS_TAB` makes the code as written throw,
   * where the intended reading grants EDIT and STATS_TAB.
   */
  lemma ConfiguredDefaultsRejected()
    ensures DetDefaultPermissionsAsWritten(Some("EDIT,STATS_TAB"), "Pro") == Err(TypeError)
    ensures IntendedDefaults(Some("EDIT,STATS_TAB"), "Pro") == ["EDIT", "STATS_TAB"]
  {
    assert Php.Implode(',', ["EDIT", "STATS_TAB"]) == "EDIT,STATS_TAB";
    assert Php.ToUpper("Pro") == "PRO";
    ConfiguredListHonoured(["EDIT", "STATS_TAB"], "Pro");
  }

  lemma FirstKeptIsTruthy(ps: seq<string>)
    requires DropFalsy(ps) != []
    ensures DropFalsy(ps)[0] in ps && Php.Truthy(DropFalsy(ps)[0])
  {
  }

  /**
   * The defaults are used when the list has no truthy entry; when it has one, the result is
   * exactly the truthy entries.
   */
  lemma DefaultsOnlyForEmptyList(config: Configuration, permissions: Option<string>, planName: string)
    ensures var pieces := Php.Explode(',', permissions.GetOr(""));
      (forall x :: x in pieces ==> !Php.Truthy(x)) ==>
        PermissionsFor(config, permissions, planName) == DetDefaultPermissions(config, planName)
    ensures var pieces := Php.Explode(',', permissions.GetOr(""));
      (exists x :: x in pieces && Php.Truthy(x)) ==>
        var r := PermissionsFor(config, permissions, planName);
        r != [] && forall x :: x in r <==> x in pieces && Php.Truthy(x)
  {
    var pieces := Php.Explode(',', permissions.GetOr(""));
    if exists x :: x in pieces && Php.Truthy(x) {
      var x :| x in pieces && Php.Truthy(x);
      assert x in DropFalsy(pieces);
    } else if DropFalsy(pieces) != [] {
      FirstKeptIsTruthy(pieces);
      assert false;
    }
  }

  // ---------------------------------------------------------------------------------------
  // Exception translation

  /** The provision error for a platform reply: the body's `message`, or else the reason phrase. */
  function ApiError(response: HttpResponse): (r: Exception)
    ensures r.ProvisionError? && |r.message| >= 20 && r.message[..20] == "Provider API Error: "
    ensures r.data == ResponseData(if response.body.decoded.Value? then response.body.decoded.json else JNull)
  {
    var data := if response.body.decoded.Value? then response.body.decoded.json else JNull;
    var message := Index(data, "message");
    ProvisionError("Provider API Error: " + (if message.JNull? then response.reason else ToText(message)),
                   ResponseData(data))
  }

  /** handleException: a request exception that carries a reply becomes a provision error; the rest is rethrown. */
  function HandleException(e: Exception): (r: Exception)
    ensures (e.ClientError? || (e.RequestError? && e.reply.Some?)) ==> r.ProvisionError?
    ensures !(e.ClientError? || (e.RequestError? && e.reply.Some?)) ==> r == e
  {
    match e
    case ClientError(_, response) => ApiError(response)
    case RequestError(_, Some(response)) => ApiError(response)
    case _ => e
  }

  /**
   * The translated error names the reply's message (or its reason phrase) after the fixed
   * prefix, and carries the decoded body.
   */
  lemma TranslatedMessage(e: Exception)
    requires e.ClientError? || (e.RequestError? && e.reply.Some?)
    ensures var response := if e.ClientError? then e.response else e.reply.value;
      var data := if response.body.decoded.Value? then response.body.decoded.json else JNull;
      var r := HandleException(e);
      && r.data == ResponseData(data)
      && |r.message| >= 20 && r.message[..20] == "Provider API Error: "
      && (Index(data, "message").JNull? ==> r.message[20..] == response.reason)
      && (!Index(data, "message").JNull? ==> r.message[20..] == ToText(Index(data, "message")))
  {
  }

  /** Translating twice is translating once: a provision error passes through unchanged. */
  lemma HandleExceptionIdempotent(e: Exception)
    ensures HandleException(HandleException(e)) == HandleException(e)
  {
  }

  // ---------------------------------------------------------------------------------------
  // Inputs and results

  /** The order's fields that create reads (src/Data/CreateParams.php). */
  datatype CreateParams = CreateParams(
    siteBuilderUserId: Option<string>,
    customerName: string,
    customerEmail: string,
    domainName: Option<string>,
    packageReference: string,
    languageCode: Option<string>,
    permissions: Option<string>)

  /** The account identifier of the other operations: the user id and the site (account reference). */
  datatype AccountIdentifier = AccountIdentifier(siteBuilderUserId: Option<string>, accountReference: string)

  /** The order's fields that changePackage reads (src/Data/ChangePackageParams.php). */
  datatype ChangePackageParams = ChangePackageParams(
    siteBuilderUserId: Option<string>,
    accountReference: string,
    packageReference: string,
    permissions: Option<string>)

  /** The framework's `errorResult`: a provision error with no data. */
  function ErrorResult(message: string): Exception {
    ProvisionError(message, NoData)
  }

  /** A run that stops before any call. */
  function Stop<T>(st: State, e: Exception): Run<T> {
    Run(Err(e), st, [])
  }

  /** The `catch` around every operation: whatever is thrown passes through handleException. */
  function Handled<T>(r: Result<T, Exception>): Result<T, Exception> {
    if r.Err? then Err(HandleException(r.error)) else r
  }

  /** A run inside the `catch`: the same calls and state, its exception translated. */
  function Guarded<T>(r: Run<T>): (g: Run<T>)
    ensures g.st == r.st && g.calls == r.calls
    ensures r.result.Ok? ==> g.result == r.result
    ensures r.result.Err? ==> g.result == Err(HandleException(r.result.error))
  {
    r.(result := Handled(r.result))
  }

  function WithMessage(info: AccountInfo, message: string): AccountInfo {
    info.(message := Some(message))
  }

  // ---------------------------------------------------------------------------------------
  // The operations, as runs

  /**
   * getAccountInfo: no user id is an error before any call; otherwise the helper's getInfo,
   * with the given message or "Account data obtained".
   */
  function AccountInfoRun(env: Env, st: State, userId: Option<string>, siteId: string, message: Option<string>): Run<AccountInfo> {
    AccountInfoH(env, st, userId, siteId, message, true)
  }

  /** `AccountInfoRun`, reached through one extra unfolding when `folded`, as for `RequestH`. */
  function AccountInfoH(env: Env, st: State, userId: Option<string>, siteId: string, message: Option<string>, folded: bool): Run<AccountInfo>
    decreases folded
  {
    if folded then AccountInfoH(env, st, userId, siteId, message, false)
    else if Php.Empty(userId) then Stop(st, ErrorResult("Site builder user id is required"))
    else
      var g := GetInfoRun(env, st, userId.value, siteId);
      if g.result.Err? then g
      else g.(result := Ok(WithMessage(g.result.value, if Php.Empty(message) then "Account data obtained" else message.value)))
  }

  /** create's account step: the given user's account, or a new one for the customer. */
  function AccountStepRun(env: Env, st: State, p: CreateParams): Run<Json> {
    AccountStepH(env, st, p, true)
  }

  /** `AccountStepRun`, folded as `AccountInfoH` is. */
  function AccountStepH(env: Env, st: State, p: CreateParams, folded: bool): Run<Json>
    decreases folded
  {
    if folded then AccountStepH(env, st, p, false)
    else if !Php.Empty(p.siteBuilderUserId) then GetAccountRun(env, st, p.siteBuilderUserId.value)
    else CreateAccountRun(env, st, p.customerEmail, Some(p.customerName), p.languageCode)
  }

  /**
   * create, inside its `try`: a domain is required; then the plan, the account and the site,
   * in that order, and the info of the new site.  The plan's id must be an integer and its name,
   * like the account's name, a string (the file declares strict types).
   */
  function CreateStepsRun(env: Env, st: State, config: Configuration, p: CreateParams): Run<AccountInfo> {
    CreateStepsH(env, st, config, p, true)
  }

  /** `CreateStepsRun`, folded as `AccountInfoH` is. */
  function CreateStepsH(env: Env, st: State, config: Configuration, p: CreateParams, folded: bool): Run<AccountInfo>
    decreases folded
  {
    if folded then CreateStepsH(env, st, config, p, false)
    else if Php.Empty(p.domainName) then Stop(st, ErrorResult("Domain name is required!"))
    else
      var plan := GetPlanRun(env, st, p.packageReference);
      if plan.result.Err? then Raise(plan)
      else
        var account := AccountStepRun(env, plan.st, p);
        if account.result.Err? then Fail(plan.calls, account)
        else After(plan.calls + account.calls, CreateSiteStepRun(env, account.st, config, p, plan.result.value, account.result.value))
  }

  /** The rest of create, once the plan and the account are known. */
  function CreateSiteStepRun(env: Env, st: State, config: Configuration, p: CreateParams, plan: Json, account: Json): Run<AccountInfo>
    requires p.domainName.Some?
  {
    CreateSiteStepH(env, st, config, p, plan, account, true)
  }

  /** `CreateSiteStepRun`, folded as `AccountInfoH` is. */
  function CreateSiteStepH(env: Env, st: State, config: Configuration, p: CreateParams, plan: Json, account: Json, folded: bool): Run<AccountInfo>
    requires p.domainName.Some?
    decreases folded
  {
    if folded then CreateSiteStepH(env, st, config, p, plan, account, false) else
    var accountName := Index(account, "account_name");
    var planId := Index(plan, "planId");
    var planName := Index(plan, "planName");
    if !planName.JStr? || !accountName.JStr? || !planId.JInt? then Stop(st, TypeError)
    else
      var site := CreateSiteRun(env, st, accountName.s, p.domainName.value, planId.i, p.languageCode,
                                PermissionsFor(config, p.permissions, planName.s));
      if site.result.Err? then Raise(site)
      else After(site.calls, AccountInfoRun(env, site.st, Some(accountName.s), site.result.value, Some("Website created")))
  }

  function CreateRun(env: Env, st: State, config: Configuration, p: CreateParams): Run<AccountInfo> {
    Guarded(CreateStepsRun(env, st, config, p))
  }

  function GetInfoOpRun(env: Env, st: State, p: AccountIdentifier): Run<AccountInfo> {
    Guarded(AccountInfoRun(env, st, p.siteBuilderUserId, p.accountReference, None))
  }

  /** login: a user id is required; the result is the SSO link. */
  function LoginOpRun(env: Env, st: State, config: Configuration, p: AccountIdentifier): Run<string> {
    Guarded(
      if Php.Empty(p.siteBuilderUserId) then Stop(st, ErrorResult("Site builder user id is required"))
      else LoginRun(env, st, config.ssoTargetDestination, p.siteBuilderUserId.value, p.accountReference))
  }

  /** changePackage, inside its `try`: a user id is required; then the plan, the change, and the info. */
  function ChangePackageStepsRun(env: Env, st: State, config: Configuration, p: ChangePackageParams): Run<AccountInfo> {
    ChangePackageStepsH(env, st, config, p, true)
  }

  /** `ChangePackageStepsRun`, folded as `AccountInfoH` is. */
  function ChangePackageStepsH(env: Env, st: State, config: Configuration, p: ChangePackageParams, folded: bool): Run<AccountInfo>
    decreases folded
  {
    if folded then ChangePackageStepsH(env, st, config, p, false)
    else if Php.Empty(p.siteBuilderUserId) then Stop(st, ErrorResult("Site builder user id is required"))
    else
      var plan := GetPlanRun(env, st, p.packageReference);
      if plan.result.Err? then Raise(plan)
      else After(plan.calls, ChangePlanStepRun(env, plan.st, config, p, plan.result.value))
  }

  /** The rest of changePackage, once the plan is known: the plan's id must be an integer and its name a string. */
  function ChangePlanStepRun(env: Env, st: State, config: Configuration, p: ChangePackageParams, plan: Json): Run<AccountInfo>
    requires p.siteBuilderUserId.Some?
  {
    ChangePlanStepH(env, st, config, p, plan, true)
  }

  /** `ChangePlanStepRun`, folded as `AccountInfoH` is. */
  function ChangePlanStepH(env: Env, st: State, config: Configuration, p: ChangePackageParams, plan: Json, folded: bool): Run<AccountInfo>
    requires p.siteBuilderUserId.Some?
    decreases folded
  {
    if folded then ChangePlanStepH(env, st, config, p, plan, false) else
    var planId := Index(plan, "planId");
    var planName := Index(plan, "planName");
    if !planName.JStr? || !planId.JInt? then Stop(st, TypeError)
    else
      var change := ChangePackageRun(env, st, p.siteBuilderUserId.value, p.accountReference, planId.i,
                                     PermissionsFor(config, p.permissions, planName.s));
      if change.result.Err? then Raise(change)
      else After(change.calls, AccountInfoRun(env, change.st, p.siteBuilderUserId, p.accountReference, Some("Package changed")))
  }

  function ChangePackageOpRun(env: Env, st: State, config: Configuration, p: ChangePackageParams): Run<AccountInfo> {
    Guarded(ChangePackageStepsRun(env, st, config, p))
  }

  /** suspend, inside its `try`: unpublish the site unless the info says it is unpublished already. */
  function SuspendStepsRun(env: Env, st: State, p: AccountIdentifier): Run<AccountInfo> {
    var info := AccountInfoRun(env, st, p.siteBuilderUserId, p.accountReference, None);
    if info.result.Err? then info
    else if !info.result.value.isPublished then info.(result := Ok(WithMessage(info.result.value, "Account already unpublished")))
    else
      var u := Effect(env, info.st, Unpublish(p.accountReference));
      if u.result.Err? then Fail(info.calls, u)
      else Run(Ok(WithMessage(info.result.value.(isPublished := false), "Account suspended/unpublished")), u.st, info.calls + u.calls)
  }

  function SuspendRun(env: Env, st: State, p: AccountIdentifier): Run<AccountInfo> {
    Guarded(SuspendStepsRun(env, st, p))
  }

  /**
   * unSuspend, inside its `try`: nothing for a FREE plan, whatever the publish state; otherwise
   * publish the site unless the info says it is published already.
   */
  function UnSuspendStepsRun(env: Env, st: State, p: AccountIdentifier): Run<AccountInfo> {
    var info := AccountInfoRun(env, st, p.siteBuilderUserId, p.accountReference, None);
    if info.result.Err? then info
    else if Php.ToUpper(info.result.value.packageReference) == "FREE"
    then info.(result := Ok(WithMessage(info.result.value, "Free sites cannot be unsuspended/republished")))
    else if info.result.value.isPublished then info.(result := Ok(WithMessage(info.result.value, "Account already unsuspended/republished")))
    else
      var u := Effect(env, info.st, Publish(p.accountReference));
      if u.result.Err? then Fail(info.calls, u)
      else Run(Ok(WithMessage(info.result.value.(isPublished := true), "Account unsuspended/republished")), u.st, info.calls + u.calls)
  }

  function UnSuspendRun(env: Env, st: State, p: AccountIdentifier): Run<AccountInfo> {
    Guarded(UnSuspendStepsRun(env, st, p))
  }

  /** terminate: delete the site. */
  function TerminateRun(env: Env, st: State, p: AccountIdentifier): Run<string> {
    var d := Effect(env, st, DeleteSite(p.accountReference));
    Guarded(if d.result.Err? then Raise(d) else Run(Ok("Account Terminated"), d.st, d.calls))
  }

  // ---------------------------------------------------------------------------------------
  // What the operations promise

  /**
   * terminate deletes the site and nothing else: exactly one call, the delete; an existing
   * site is removed and "Account Terminated" returned, a missing one leaves the platform as it
   * was and fails.
   */
  lemma TerminateDeletesSite(env: Env, st: State, p: AccountIdentifier)
    requires DeleteSite(p.accountReference) !in env.faults
    ensures var run := TerminateRun(env, st, p);
      && run.calls == [DeleteSite(p.accountReference)]
      && (p.accountReference in st.sites ==>
            run.st == st.(sites := st.sites - {p.accountReference}) && run.result == Ok("Account Terminated"))
      && (p.accountReference !in st.sites ==> run.st == st && run.result.Err?)
  {
    RequestIssuesItsCall(env, st, DeleteSite(p.accountReference));
  }

  /**
   * The info fetch only reads: it leaves the platform as it was, issues queries only, stops
   * before any call without a user id, and carries the given message or "Account data obtained".
   */
  lemma AccountInfoOnlyReads(env: Env, st: State, userId: Option<string>, siteId: string, message: Option<string>)
    ensures var run := AccountInfoRun(env, st, userId, siteId, message);
      && run.st == st
      && Changes(run.calls) == []
      && (Php.Empty(userId) ==> run == Stop(st, ErrorResult("Site builder user id is required")))
      && (run.result.Ok? ==> run.result.value.message == Some(if Php.Empty(message) then "Account data obtained" else message.value))
  {
    var run := AccountInfoRun(env, st, userId, siteId, message);
    assert AccountInfoH(env, st, userId, siteId, message, true) == AccountInfoH(env, st, userId, siteId, message, false);
    if !Php.Empty(userId) {
      GetInfoOnlyReads(env, st, userId.value, siteId);
      var all := [GetAccount(userId.value), GetSite(siteId), GetSitePlan(siteId), GetPermissions(userId.value, siteId)];
      assert forall k :: 0 <= k < |run.calls| ==> run.calls[k] == all[k];
    }
    ChangesOfQueries(run.calls);
  }

  /** The info fetch reports the platform's publish status, when the site request is answered as the platform would. */
  lemma AccountInfoSeesPublishStatus(env: Env, st: State, userId: Option<string>, siteId: string, message: Option<string>)
    requires GetSite(siteId) !in env.faults
    ensures var run := AccountInfoRun(env, st, userId, siteId, message);
      run.result.Ok? ==> siteId in st.sites && run.result.value.isPublished == st.sites[siteId].published
  {
    assert AccountInfoH(env, st, userId, siteId, message, true) == AccountInfoH(env, st, userId, siteId, message, false);
    if !Php.Empty(userId) {
      GetInfoSeesPublishStatus(env, st, userId.value, siteId);
    }
  }

  /** Without a user id, getInfo, login, suspend and unSuspend fail before any remote call. */
  lemma UserIdRequired(env: Env, st: State, config: Configuration, p: AccountIdentifier)
    requires Php.Empty(p.siteBuilderUserId)
    ensures var e := ErrorResult("Site builder user id is required");
      && GetInfoOpRun(env, st, p) == Stop(st, e)
      && LoginOpRun(env, st, config, p) == Stop(st, e)
      && SuspendRun(env, st, p) == Stop(st, e)
      && UnSuspendRun(env, st, p) == Stop(st, e)
  {
    AccountInfoOnlyReads(env, st, p.siteBuilderUserId, p.accountReference, None);
  }

  /** Without a user id, changePackage fails before any remote call. */
  lemma ChangePackageNeedsUserId(env: Env, st: State, config: Configuration, p: ChangePackageParams)
    requires Php.Empty(p.siteBuilderUserId)
    ensures ChangePackageOpRun(env, st, config, p) == Stop(st, ErrorResult("Site builder user id is required"))
  {
    assert ChangePackageStepsH(env, st, config, p, true) == ChangePackageStepsH(env, st, config, p, false);
  }

  /** Without a domain, create fails before any remote call. */
  lemma CreateNeedsDomain(env: Env, st: State, config: Configuration, p: CreateParams)
    requires Php.Empty(p.domainName)
    ensures CreateRun(env, st, config, p) == Stop(st, ErrorResult("Domain name is required!"))
  {
    assert CreateStepsH(env, st, config, p, true) == CreateStepsH(env, st, config, p, false);
  }

  /**
   * suspend's guard: a site the info shows unpublished gets no call that changes anything and
   * its info back with "Account already unpublished"; a published one gets exactly one change,
   * the unpublish, and on success its info with the site unpublished.
   */
  lemma SuspendGuard(env: Env, st: State, p: AccountIdentifier)
    ensures var info := AccountInfoRun(env, st, p.siteBuilderUserId, p.accountReference, None);
      var run := SuspendStepsRun(env, st, p);
      && (info.result.Err? ==> run == info && Changes(run.calls) == [])
      && (info.result.Ok? && !info.result.value.isPublished ==>
            && Changes(run.calls) == [] && run.st == st
            && run.result == Ok(WithMessage(info.result.value, "Account already unpublished")))
      && (info.result.Ok? && info.result.value.isPublished ==>
            && Changes(run.calls) == [Unpublish(p.accountReference)]
            && (run.result.Ok? ==> run.result.value == WithMessage(info.result.value.(isPublished := false), "Account suspended/unpublished")))
  {
    var info := AccountInfoRun(env, st, p.siteBuilderUserId, p.accountReference, None);
    AccountInfoOnlyReads(env, st, p.siteBuilderUserId, p.accountReference, None);
    RequestIssuesItsCall(env, st, Unpublish(p.accountReference));
    ChangesAppend(info.calls, [Unpublish(p.accountReference)]);
    assert Changes([Unpublish(p.accountReference)]) == [Unpublish(p.accountReference)];
  }

  /**
   * unSuspend's guard, checked in this order: a FREE plan gets no change and "Free sites cannot
   * be unsuspended/republished", whatever the publish state; a published site gets no change and
   * "Account already unsuspended/republished"; any other site exactly one change, the publish,
   * and on success its info with the site published.
   */
  lemma UnSuspendGuard(env: Env, st: State, p: AccountIdentifier)
    ensures var info := AccountInfoRun(env, st, p.siteBuilderUserId, p.accountReference, None);
      var run := UnSuspendStepsRun(env, st, p);
      && (info.result.Err? ==> run == info)
      && (info.result.Ok? && Php.ToUpper(info.result.value.packageReference) == "FREE" ==>
            && Changes(run.calls) == [] && run.st == st
            && run.result == Ok(WithMessage(info.result.value, "Free sites cannot be unsuspended/republished")))
      && (info.result.Ok? && Php.ToUpper(info.result.value.packageReference) != "FREE" && info.result.value.isPublished ==>
            && Changes(run.calls) == [] && run.st == st
            && run.result == Ok(WithMessage(info.result.value, "Account already unsuspended/republished")))
      && (info.result.Ok? && Php.ToUpper(info.result.value.packageReference) != "FREE" && !info.result.value.isPublished ==>
            && Changes(run.calls) == [Publish(p.accountReference)]
            && (run.result.Ok? ==> run.result.value == WithMessage(info.result.value.(isPublished := true), "Account unsuspended/republished")))
  {
    var info := AccountInfoRun(env, st, p.siteBuilderUserId, p.accountReference, None);
    AccountInfoOnlyReads(env, st, p.siteBuilderUserId, p.accountReference, None);
    RequestIssuesItsCall(env, st, Publish(p.accountReference));
    ChangesAppend(info.calls, [Publish(p.accountReference)]);
    assert Changes([Publish(p.accountReference)]) == [Publish(p.accountReference)];
  }

  /**
   * A suspend whose info fetch succeeds leaves the site unpublished, as long as the site's own
   * requests are answered as the platform would.
   */
  lemma SuspendLeavesUnpublished(env: Env, st: State, p: AccountIdentifier)
    requires GetSite(p.accountReference) !in env.faults && Unpublish(p.accountReference) !in env.faults
    ensures var info := AccountInfoRun(env, st, p.siteBuilderUserId, p.accountReference, None);
      var run := SuspendStepsRun(env, st, p);
      info.result.Ok? ==> p.accountReference in run.st.sites && !run.st.sites[p.accountReference].published
  {
    var s := p.accountReference;
    AccountInfoOnlyReads(env, st, p.siteBuilderUserId, s, None);
    AccountInfoSeesPublishStatus(env, st, p.siteBuilderUserId, s, None);
    RequestIssuesItsCall(env, st, Unpublish(s));
    if s in st.sites {
      PublishSetsStatus(st, env, s, false);
    }
  }

  /**
   * Two suspends in a row unpublish at most once, as long as the site's own requests are
   * answered as the platform would: after the first unpublish the second sees the site
   * unpublished.
   */
  lemma SuspendTwice(env: Env, st: State, p: AccountIdentifier)
    requires GetSite(p.accountReference) !in env.faults && Unpublish(p.accountReference) !in env.faults
    ensures var first := SuspendRun(env, st, p);
      var second := SuspendRun(env, first.st, p);
      |Changes(first.calls + second.calls)| <= 1
  {
    var first := SuspendStepsRun(env, st, p);
    var second := SuspendStepsRun(env, first.st, p);
    ChangesAppend(first.calls, second.calls);
    SuspendGuard(env, st, p);
    SuspendGuard(env, first.st, p);
    SuspendLeavesUnpublished(env, st, p);
    AccountInfoSeesPublishStatus(env, first.st, p.siteBuilderUserId, p.accountReference, None);
  }

  /**
   * create's account step reuses the given user's account, reading it and nothing else, and
   * otherwise creates the customer's account first.
   */
  lemma AccountStepCalls(env: Env, st: State, p: CreateParams)
    ensures var run := AccountStepRun(env, st, p);
      && 1 <= |run.calls|
      && (!Php.Empty(p.siteBuilderUserId) ==> run.calls == [GetAccount(p.siteBuilderUserId.value)] && run.st == st)
      && (Php.Empty(p.siteBuilderUserId) ==> run.calls[0] == NewAccountCall(p.customerEmail, Some(p.customerName), p.languageCode))
  {
    assert AccountStepH(env, st, p, true) == AccountStepH(env, st, p, false);
    if !Php.Empty(p.siteBuilderUserId) {
      assert GetAccountH(env, st, p.siteBuilderUserId.value, true) == GetAccountH(env, st, p.siteBuilderUserId.value, false);
      RequestIssuesItsCall(env, st, GetAccount(p.siteBuilderUserId.value));
    } else {
      CreateAccountCalls(env, st, p.customerEmail, Some(p.customerName), p.languageCode);
    }
  }

  /** create's last step creates the site first and, on success, reports "Website created". */
  lemma CreateSiteStepOrder(env: Env, st: State, config: Configuration, p: CreateParams, plan: Json, account: Json)
    requires p.domainName.Some?
    ensures var run := CreateSiteStepRun(env, st, config, p, plan, account);
      run.result.Ok? ==>
        && 1 <= |run.calls| && run.calls[0] == CreateSite(p.languageCode, p.domainName.value)
        && run.result.value.message == Some("Website created")
  {
    var run := CreateSiteStepRun(env, st, config, p, plan, account);
    assert CreateSiteStepH(env, st, config, p, plan, account, true) == CreateSiteStepH(env, st, config, p, plan, account, false);
    var accountName := Index(account, "account_name");
    var planId := Index(plan, "planId");
    var planName := Index(plan, "planName");
    if run.result.Ok? {
      var site := CreateSiteRun(env, st, accountName.s, p.domainName.value, planId.i, p.languageCode,
                                PermissionsFor(config, p.permissions, planName.s));
      CreateSiteOrder(env, st, accountName.s, p.domainName.value, planId.i, p.languageCode,
                      PermissionsFor(config, p.permissions, planName.s));
      AccountInfoOnlyReads(env, site.st, Some(accountName.s), site.result.value, Some("Website created"));
    }
  }

  /**
   * create resolves the plan, then the account, then creates the site, in that order, and on
   * success reports "Website created".
   */
  lemma CreateOrder(env: Env, st: State, config: Configuration, p: CreateParams)
    requires !Php.Empty(p.domainName)
    ensures var run := CreateRun(env, st, config, p);
      var account := AccountStepRun(env, st, p);
      && 1 <= |run.calls| && run.calls[0] == ListPlans
      && (run.result.Ok? ==>
            && account.result.Ok?
            && |run.calls| > 1 + |account.calls|
            && run.calls[1..1 + |account.calls|] == account.calls
            && run.calls[1 + |account.calls|] == CreateSite(p.languageCode, p.domainName.value)
            && run.result.value.message == Some("Website created"))
  {
    assert CreateStepsH(env, st, config, p, true) == CreateStepsH(env, st, config, p, false);
    assert GetPlanH(env, st, p.packageReference, true) == GetPlanH(env, st, p.packageReference, false);
    RequestIssuesItsCall(env, st, ListPlans);
    var plan := GetPlanRun(env, st, p.packageReference);
    var account := AccountStepRun(env, st, p);
    if plan.result.Ok? && account.result.Ok? {
      CreateSiteStepOrder(env, account.st, config, p, plan.result.value, account.result.value);
    }
  }

  /**
   * changePackage's last step grants the permissions for the plan's name and moves the site to
   * the plan's id, then, on success, reports "Package changed".
   */
  lemma ChangePlanStepOrder(env: Env, st: State, config: Configuration, p: ChangePackageParams, plan: Json)
    requires p.siteBuilderUserId.Some?
    ensures var run := ChangePlanStepRun(env, st, config, p, plan);
      var id := Index(plan, "planId");
      var name := Index(plan, "planName");
      run.result.Ok? ==>
        && id.JInt? && name.JStr? && |run.calls| >= 2
        && run.calls[0] == SetPermissions(p.siteBuilderUserId.value, p.accountReference,
                                          SupportedPermissions(PermissionsFor(config, p.permissions, name.s)))
        && run.calls[1] == ChangePlan(p.accountReference, id.i)
        && run.result.value.message == Some("Package changed")
  {
    var run := ChangePlanStepRun(env, st, config, p, plan);
    assert ChangePlanStepH(env, st, config, p, plan, true) == ChangePlanStepH(env, st, config, p, plan, false);
    var id := Index(plan, "planId");
    var name := Index(plan, "planName");
    if run.result.Ok? {
      var change := ChangePackageRun(env, st, p.siteBuilderUserId.value, p.accountReference, id.i,
                                     PermissionsFor(config, p.permissions, name.s));
      ChangePackageOrder(env, st, p.siteBuilderUserId.value, p.accountReference, id.i,
                         PermissionsFor(config, p.permissions, name.s));
      AccountInfoOnlyReads(env, change.st, p.siteBuilderUserId, p.accountReference, Some("Package changed"));
    }
  }

  /**
   * changePackage resolves the plan, then grants the permissions for the plan's name and moves
   * the site to the plan's id, and on success reports "Package changed".
   */
  lemma ChangePackageStepsOrder(env: Env, st: State, config: Configuration, p: ChangePackageParams)
    requires !Php.Empty(p.siteBuilderUserId)
    ensures var run := ChangePackageStepsRun(env, st, config, p);
      var plan := GetPlanRun(env, st, p.packageReference);
      && 1 <= |run.calls| && run.calls[0] == ListPlans
      && (run.result.Ok? ==>
            && plan.result.Ok?
            && var id := Index(plan.result.value, "planId");
            var name := Index(plan.result.value, "planName");
            && id.JInt? && name.JStr? && |run.calls| >= 3
            && run.calls[1] == SetPermissions(p.siteBuilderUserId.value, p.accountReference,
                                              SupportedPermissions(PermissionsFor(config, p.permissions, name.s)))
            && run.calls[2] == ChangePlan(p.accountReference, id.i)
            && run.result.value.message == Some("Package changed"))
  {
    assert ChangePackageStepsH(env, st, config, p, true) == ChangePackageStepsH(env, st, config, p, false);
    assert GetPlanH(env, st, p.packageReference, true) == GetPlanH(env, st, p.packageReference, false);
    RequestIssuesItsCall(env, st, ListPlans);
    var plan := GetPlanRun(env, st, p.packageReference);
    if plan.result.Ok? {
      ChangePlanStepOrder(env, st, config, p, plan.result.value);
    }
  }

  // ---------------------------------------------------------------------------------------
  // The provider

  class Provider {
    const configuration: Configuration
    /** The platform the provider's HTTP client talks to. */
    const remote: Platform
    /** The helper, made on first use. */
    var api: DudaApi?

    /** A helper, once made, talks to the provider's platform with the provider's configuration. */
    ghost predicate Valid()
      reads this
    {
      api != null ==> api.remote == remote && api.config == configuration
    }

    constructor (configuration: Configuration, remote: Platform)
      ensures this.configuration == configuration && this.remote == remote && api == null
      ensures Valid()
    {
      this.configuration := configuration;
      this.remote := remote;
      api := null;
    }

    /** api: the helper, made once and then reused. */
    method Api() returns (a: DudaApi)
      requires Valid()
      modifies this
      ensures Valid() && api == a
      ensures a.remote == remote && a.config == configuration
      ensures old(api) != null ==> a == old(api)
      ensures old(api) == null ==> fresh(a)
    {
      if api != null {
        return api;
      }
      a := new DudaApi(remote, configuration);
      api := a;
    }

    /** getAccountInfo. */
    method GetAccountInfo(userId: Option<string>, siteId: string, message: Option<string>) returns (r: Result<AccountInfo, Exception>)
      requires Valid()
      modifies this, remote
      ensures Valid() && (old(api) != null ==> api == old(api))
      ensures var run := AccountInfoRun(remote.env, old(remote.Current()), userId, siteId, message);
        r == run.result && Performed(remote, run)
    {
      assert AccountInfoH(remote.env, old(remote.Current()), userId, siteId, message, true)
          == AccountInfoH(remote.env, old(remote.Current()), userId, siteId, message, false);
      if Php.Empty(userId) {
        return Err(ErrorResult("Site builder user id is required"));
      }
      var api := Api();
      var info := api.GetInfo(userId.value, siteId);
      if info.Err? {
        return info;
      }
      r := Ok(WithMessage(info.value, if Php.Empty(message) then "Account data obtained" else message.value));
    }

    method GetInfo(p: AccountIdentifier) returns (r: Result<AccountInfo, Exception>)
      requires Valid()
      modifies this, remote
      ensures Valid() && (old(api) != null ==> api == old(api))
      ensures var run := GetInfoOpRun(remote.env, old(remote.Current()), p); r == run.result && Performed(remote, run)
    {
      r := GetAccountInfo(p.siteBuilderUserId, p.accountReference, None);
      r := Handled(r);
    }

    method Login(p: AccountIdentifier) returns (r: Result<string, Exception>)
      requires Valid()
      modifies this, remote
      ensures Valid() && (old(api) != null ==> api == old(api))
      ensures var run := LoginOpRun(remote.env, old(remote.Current()), configuration, p); r == run.result && Performed(remote, run)
    {
      if Php.Empty(p.siteBuilderUserId) {
        return Handled(Err(ErrorResult("Site builder user id is required")));
      }
      var api := Api();
      r := api.Login(p.siteBuilderUserId.value, p.accountReference);
      r := Handled(r);
    }

    method Terminate(p: AccountIdentifier) returns (r: Result<string, Exception>)
      requires Valid()
      modifies this, remote
      ensures Valid() && (old(api) != null ==> api == old(api))
      ensures var run := TerminateRun(remote.env, old(remote.Current()), p); r == run.result && Performed(remote, run)
    {
      var api := Api();
      var deleted := api.Terminate(p.accountReference);
      r := Handled(if deleted.Err? then Err(deleted.error) else Ok("Account Terminated"));
    }

    method Suspend(p: AccountIdentifier) returns (r: Result<AccountInfo, Exception>)
      requires Valid()
      modifies this, remote
      ensures Valid() && (old(api) != null ==> api == old(api))
      ensures var run := SuspendRun(remote.env, old(remote.Current()), p); r == run.result && Performed(remote, run)
    {
      r := SuspendSteps(p);
      r := Handled(r);
    }

    method SuspendSteps(p: AccountIdentifier) returns (r: Result<AccountInfo, Exception>)
      requires Valid()
      modifies this, remote
      ensures Valid() && (old(api) != null ==> api == old(api))
      ensures var run := SuspendStepsRun(remote.env, old(remote.Current()), p); r == run.result && Performed(remote, run)
    {
      ghost var log0 := remote.log;
      r := GetAccountInfo(p.siteBuilderUserId, p.accountReference, None);
      if r.Err? {
        return;
      }
      if !r.value.isPublished {
        return Ok(WithMessage(r.value, "Account already unpublished"));
      }
      var api := Api();
      ghost var log1 := remote.log;
      var unpublished := api.Suspend(p.accountReference);
      LogGrowth(log0, log1, remote.log);
      if unpublished.Err? {
        return Err(unpublished.error);
      }
      r := Ok(WithMessage(r.value.(isPublished := false), "Account suspended/unpublished"));
    }

    method UnSuspend(p: AccountIdentifier) returns (r: Result<AccountInfo, Exception>)
      requires Valid()
      modifies this, remote
      ensures Valid() && (old(api) != null ==> api == old(api))
      ensures var run := UnSuspendRun(remote.env, old(remote.Current()), p); r == run.result && Performed(remote, run)
    {
      r := UnSuspendSteps(p);
      r := Handled(r);
    }

    method UnSuspendSteps(p: AccountIdentifier) returns (r: Result<AccountInfo, Exception>)
      requires Valid()
      modifies this, remote
      ensures Valid() && (old(api) != null ==> api == old(api))
      ensures var run := UnSuspendStepsRun(remote.env, old(remote.Current()), p); r == run.result && Performed(remote, run)
    {
      ghost var log0 := remote.log;
      r := GetAccountInfo(p.siteBuilderUserId, p.accountReference, None);
      if r.Err? {
        return;
      }
      if Php.ToUpper(r.value.packageReference) == "FREE" {
        return Ok(WithMessage(r.value, "Free sites cannot be unsuspended/republished"));
      }
      if r.value.isPublished {
        return Ok(WithMessage(r.value, "Account already unsuspended/republished"));
      }
      var api := Api();
      ghost var log1 := remote.log;
      var published := api.Unsuspend(p.accountReference);
      LogGrowth(log0, log1, remote.log);
      if published.Err? {
        return Err(published.error);
      }
      r := Ok(WithMessage(r.value.(isPublished := true), "Account unsuspended/republished"));
    }

    method ChangePackage(p: ChangePackageParams) returns (r: Result<AccountInfo, Exception>)
      requires Valid()
      modifies this, remote
      ensures Valid() && (old(api) != null ==> api == old(api))
      ensures var run := ChangePackageOpRun(remote.env, old(remote.Current()), configuration, p); r == run.result && Performed(remote, run)
    {
      r := ChangePackageSteps(p);
      r := Handled(r);
    }

    method ChangePackageSteps(p: ChangePackageParams) returns (r: Result<AccountInfo, Exception>)
      requires Valid()
      modifies this, remote
      ensures Valid() && (old(api) != null ==> api == old(api))
      ensures var run := ChangePackageStepsRun(remote.env, old(remote.Current()), configuration, p);
        r == run.result && Performed(remote, run)
    {
      assert ChangePackageStepsH(remote.env, remote.Current(), configuration, p, true)
          == ChangePackageStepsH(remote.env, remote.Current(), configuration, p, false);
      if Php.Empty(p.siteBuilderUserId) {
        return Err(ErrorResult("Site builder user id is required"));
      }
      var api := Api();
      ghost var log0 := remote.log;
      var plan := api.GetPlan(p.packageReference);
      if plan.Err? {
        return Err(plan.error);
      }
      ghost var log1 := remote.log;
      r := ChangePlanStep(p, plan.value);
      LogGrowth(log0, log1, remote.log);
    }

    /** The rest of changePackage: check the plan's fields, change the package, read the info back. */
    method ChangePlanStep(p: ChangePackageParams, plan: Json) returns (r: Result<AccountInfo, Exception>)
      requires Valid() && p.siteBuilderUserId.Some?
      modifies this, remote
      ensures Valid() && (old(api) != null ==> api == old(api))
      ensures var run := ChangePlanStepRun(remote.env, old(remote.Current()), configuration, p, plan);
        r == run.result && Performed(remote, run)
    {
      assert ChangePlanStepH(remote.env, remote.Current(), configuration, p, plan, true)
          == ChangePlanStepH(remote.env, remote.Current(), configuration, p, plan, false);
      var planId := Index(plan, "planId");
      var planName := Index(plan, "planName");
      if !planName.JStr? || !planId.JInt? {
        return Err(TypeError);
      }
      var api := Api();
      ghost var log0 := remote.log;
      var changed := api.ChangePackage(p.siteBuilderUserId.value, p.accountReference, planId.i,
                                       PermissionsFor(configuration, p.permissions, planName.s));
      if changed.Err? {
        return Err(changed.error);
      }
      ghost var log1 := remote.log;
      r := GetAccountInfo(p.siteBuilderUserId, p.accountReference, Some("Package changed"));
      LogGrowth(log0, log1, remote.log);
    }

    method Create(p: CreateParams) returns (r: Result<AccountInfo, Exception>)
      requires Valid()
      modifies this, remote
      ensures Valid() && (old(api) != null ==> api == old(api))
      ensures var run := CreateRun(remote.env, old(remote.Current()), configuration, p); r == run.result && Performed(remote, run)
    {
      r := CreateSteps(p);
      r := Handled(r);
    }

    method CreateSteps(p: CreateParams) returns (r: Result<AccountInfo, Exception>)
      requires Valid()
      modifies this, remote
      ensures Valid() && (old(api) != null ==> api == old(api))
      ensures var run := CreateStepsRun(remote.env, old(remote.Current()), configuration, p);
        r == run.result && Performed(remote, run)
    {
      assert CreateStepsH(remote.env, remote.Current(), configuration, p, true)
          == CreateStepsH(remote.env, remote.Current(), configuration, p, false);
      if Php.Empty(p.domainName) {
        return Err(ErrorResult("Domain name is required!"));
      }
      var api := Api();
      ghost var log0 := remote.log;
      var plan := api.GetPlan(p.packageReference);
      if plan.Err? {
        return Err(plan.error);
      }
      ghost var log1 := remote.log;
      var account := AccountStep(p);
      if account.Err? {
        LogGrowth(log0, log1, remote.log);
        return Err(account.error);
      }
      ghost var log2 := remote.log;
      r := CreateSiteStep(p, plan.value, account.value);
      LogGrowth(log0, log1, log2);
      LogGrowth(log0, log2, remote.log);
    }

    /** The account create works with: the given user's, or a new one for the customer. */
    method AccountStep(p: CreateParams) returns (r: Result<Json, Exception>)
      requires Valid()
      modifies this, remote
      ensures Valid() && (old(api) != null ==> api == old(api))
      ensures var run := AccountStepRun(remote.env, old(remote.Current()), p); r == run.result && Performed(remote, run)
    {
      assert AccountStepH(remote.env, remote.Current(), p, true) == AccountStepH(remote.env, remote.Current(), p, false);
      var api := Api();
      if !Php.Empty(p.siteBuilderUserId) {
        r := api.GetAccountData(p.siteBuilderUserId.value);
      } else {
        r := api.CreateAccount(p.customerEmail, Some(p.customerName), p.languageCode);
      }
    }

    method CreateSiteStep(p: CreateParams, plan: Json, account: Json) returns (r: Result<AccountInfo, Exception>)
      requires Valid() && p.domainName.Some?
      modifies this, remote
      ensures Valid() && (old(api) != null ==> api == old(api))
      ensures var run := CreateSiteStepRun(remote.env, old(remote.Current()), configuration, p, plan, account);
        r == run.result && Performed(remote, run)
    {
      assert CreateSiteStepH(remote.env, remote.Current(), configuration, p, plan, account, true)
          == CreateSiteStepH(remote.env, remote.Current(), configuration, p, plan, account, false);
      var accountName := Index(account, "account_name");
      var planId := Index(plan, "planId");
      var planName := Index(plan, "planName");
      if !planName.JStr? || !accountName.JStr? || !planId.JInt? {
        return Err(TypeError);
      }
      var api := Api();
      ghost var log0 := remote.log;
      var site := api.CreateSite(accountName.s, p.domainName.value, planId.i, p.languageCode,
                                 PermissionsFor(configuration, p.permissions, planName.s));
      if site.Err? {
        return Err(site.error);
      }
      ghost var log1 := remote.log;
      r := GetAccountInfo(Some(accountName.s), site.value, Some("Website created"));
      LogGrowth(log0, log1, remote.log);
    }
  }
}

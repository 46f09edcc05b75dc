/**
 * The domain rules of the Duda API helper (src/Providers/Duda/Helper/DudaApi.php) that are pure
 * computations: permission canonicalisation, language negotiation, the customer-name split,
 * plan matching, the account-info mapping, response-body classification and the SSO retry
 * decision.  The helper's remote calls are in module DudaApi.
 */
module DudaRules {
  import opened Wrappers
  import opened Json
  import opened Remote
  import Php

  /** The adapter's configuration (src/Providers/Duda/Data/Configuration.php), as a record. */
  datatype Configuration = Configuration(
    username: string,
    password: string,
    template: Option<string>,
    // read by the SSO login; the declared configuration only has the two variants below
    ssoTargetDestination: Option<string>,
    unpublishedSsoTargetDestination: Option<string>,
    publishedSsoTargetDestination: Option<string>,
    // the permissions the configured comma-separated string names (the intended reading; the
    // code as written rejects any such string: DudaProvider.DetDefaultPermissionsAsWritten)
    defaultPermissions: Option<seq<string>>,
    deleteOnTerminate: Option<bool>)

  // ---------------------------------------------------------------------------------------
  // Permissions

  /** The permission tokens the platform supports. */
  const SupportedPermissionTokens: seq<string> := [
    "STATS_TAB", "EDIT", "ADD_FLEX", "E_COMMERCE", "PUBLISH", "REPUBLISH", "DEV_MODE", "INSITE",
    "SEO", "BACKUPS", "CUSTOM_DOMAIN", "RESET", "BLOG", "PUSH_NOTIFICATIONS", "LIMITED_EDITING",
    "SITE_COMMENTS", "CONTENT_LIBRARY", "EDIT_CONNECTED_DATA", "MANAGE_CONNECTED_DATA", "USE_APP",
    "CLIENT_MANAGE_FREE_APPS", "AI_ASSISTANT", "MANAGE_DOMAIN", "CONTENT_LIBRARY_EXTERNAL_DATA_SYNC",
    "SEO_OVERVIEW"
  ]

  /** One token made canonical: trimmed, spaces to underscores, upper-cased. */
  function CanonicalPermission(p: string): string {
    Php.ToUpper(Php.ReplaceChar(Php.Trim(p), ' ', '_'))
  }

  /** The `map` step: every token canonicalised, in order. */
  function CanonicalAll(ps: seq<string>): (r: seq<string>)
    ensures |r| == |ps| && forall k :: 0 <= k < |r| ==> r[k] == CanonicalPermission(ps[k])
  {
    seq(|ps|, k requires 0 <= k < |ps| => CanonicalPermission(ps[k]))
  }

  /** `Collection::filter()` without a callback: drops the falsy strings "" and "0", keeping order. */
  function DropFalsy(ps: seq<string>): (r: seq<string>)
    ensures forall x :: x in r <==> x in ps && Php.Truthy(x)
  {
    if ps == [] then [] else (if Php.Truthy(ps[0]) then [ps[0]] else []) + DropFalsy(ps[1..])
  }

  /** `array_intersect(a, b)`: the entries of `a` that occur in `b`, in `a`'s order, duplicates kept. */
  function Intersect(a: seq<string>, b: seq<string>): (r: seq<string>)
    ensures forall x :: x in r ==> x in a && x in b
  {
    if a == [] then [] else (if a[0] in b then [a[0]] else []) + Intersect(a[1..], b)
  }

  /** getSupportedPermissions: canonicalise, drop falsy tokens, keep only supported ones. */
  function SupportedPermissions(ps: seq<string>): (r: seq<string>)
    ensures forall x :: x in r ==> x in SupportedPermissionTokens
  {
    Intersect(DropFalsy(CanonicalAll(ps)), SupportedPermissionTokens)
  }

  /** The reference reading of the rule: each input token, canonicalised, if it is in `vocabulary`. */
  function KeepSupported(ps: seq<string>, vocabulary: seq<string>): seq<string> {
    if ps == [] then []
    else
      (if CanonicalPermission(ps[0]) in vocabulary then [CanonicalPermission(ps[0])] else [])
      + KeepSupported(ps[1..], vocabulary)
  }

  lemma {:induction false} IntersectAppend(a: seq<string>, a': seq<string>, b: seq<string>)
    ensures Intersect(a + a', b) == Intersect(a, b) + Intersect(a', b)
  {
    if a != [] {
      var head := if a[0] in b then [a[0]] else [];
      assert (a + a')[0] == a[0];
      assert (a + a')[1..] == a[1..] + a';
      IntersectAppend(a[1..], a', b);
      calc {
        Intersect(a + a', b);
        head + Intersect(a[1..] + a', b);
        head + (Intersect(a[1..], b) + Intersect(a', b));
        (head + Intersect(a[1..], b)) + Intersect(a', b);
      }
    } else {
      assert a + a' == a';
    }
  }

  /** Dropping falsy tokens before intersecting with a vocabulary of truthy tokens changes nothing. */
  lemma {:induction false} IntersectDropFalsy(xs: seq<string>, b: seq<string>)
    requires forall y :: y in b ==> Php.Truthy(y)
    ensures Intersect(DropFalsy(xs), b) == Intersect(xs, b)
  {
    if xs != [] {
      IntersectDropFalsy(xs[1..], b);
      IntersectAppend(if Php.Truthy(xs[0]) then [xs[0]] else [], DropFalsy(xs[1..]), b);
    }
  }

  lemma {:induction false} IntersectCanonical(ps: seq<string>, b: seq<string>)
    ensures Intersect(CanonicalAll(ps), b) == KeepSupported(ps, b)
  {
    if ps != [] {
      var c := CanonicalAll(ps);
      var head := CanonicalPermission(ps[0]);
      assert c[0] == head;
      assert c[1..] == CanonicalAll(ps[1..]);
      IntersectCanonical(ps[1..], b);
      assert Intersect(c, b) == (if head in b then [head] else []) + Intersect(c[1..], b);
    }
  }

  lemma SupportedTokensTruthy()
    ensures forall y :: y in SupportedPermissionTokens ==> Php.Truthy(y)
  {
  }

  /**
   * The pipeline is exactly the reference reading: input order is preserved, duplicates are kept,
   * and dropping falsy tokens never matters because no supported token is falsy.
   */
  lemma SupportedPermissionsIsKeepSupported(ps: seq<string>)
    ensures SupportedPermissions(ps) == KeepSupported(ps, SupportedPermissionTokens)
  {
    SupportedTokensTruthy();
    IntersectDropFalsy(CanonicalAll(ps), SupportedPermissionTokens);
    IntersectCanonical(ps, SupportedPermissionTokens);
  }

  /** A token survives exactly when its canonical form is supported; it then appears canonical. */
  lemma SupportedPermissionsMembers(ps: seq<string>, x: string)
    ensures x in SupportedPermissions(ps) <==>
      x in SupportedPermissionTokens && exists k :: 0 <= k < |ps| && CanonicalPermission(ps[k]) == x
  {
    var cs := CanonicalAll(ps);
    SupportedTokensTruthy();
    IntersectDropFalsy(cs, SupportedPermissionTokens);
    IntersectMembers(cs, SupportedPermissionTokens, x);
    if x in cs {
      var k :| 0 <= k < |cs| && cs[k] == x;
      assert CanonicalPermission(ps[k]) == x;
    }
    if exists k :: 0 <= k < |ps| && CanonicalPermission(ps[k]) == x {
      var k :| 0 <= k < |ps| && CanonicalPermission(ps[k]) == x;
      assert cs[k] == x;
    }
  }

  lemma {:induction false} IntersectMembers(a: seq<string>, b: seq<string>, x: string)
    ensures x in Intersect(a, b) <==> x in a && x in b
  {
    if a != [] {
      IntersectMembers(a[1..], b, x);
      assert a == [a[0]] + a[1..];
    }
  }

  // ---------------------------------------------------------------------------------------
  // Languages

  /** The language codes the platform supports. */
  const SupportedLanguages: seq<string> :=
    ["ar", "nl", "en", "en_gb", "fr", "de", "id", "it", "ja", "pl", "pt", "es", "es_ar", "tr"]

  /** The code as it is looked up: `en` when absent or falsy, lower-cased, `-` turned into `_`. */
  function NormalisedLanguage(code: Option<string>): (r: string)
    ensures |r| == |if code.Some? && Php.Truthy(code.value) then code.value else "en"|
    ensures '-' !in r
    ensures forall i :: 0 <= i < |r| ==> !('A' <= r[i] <= 'Z')
  {
    var chosen := if code.Some? && Php.Truthy(code.value) then code.value else "en";
    Php.ToLowerAt(chosen);
    Php.ReplaceCharAt(Php.ToLower(chosen), '-', '_');
    Php.ReplaceChar(Php.ToLower(chosen), '-', '_')
  }

  /**
   * getSupportedLanguage: the normalised code when supported; otherwise the negotiation of the
   * part before the first `_`, when there is one; otherwise `en`.  The measure records that the
   * retry happens at most once: the prefix has no `_` left.
   */
  function SupportedLanguage(code: Option<string>): (r: string)
    ensures r in SupportedLanguages
    decreases if '_' in NormalisedLanguage(code) then 1 else 0
  {
    var lang := NormalisedLanguage(code);
    if lang in SupportedLanguages then lang
    else if '_' in lang then
      PrefixHasNoSeparator(code);
      SupportedLanguage(Some(Php.Before(lang, '_')))
    else "en"
  }

  /** The prefix before the first `_` of a normalised code normalises to a code without `_`. */
  lemma PrefixHasNoSeparator(code: Option<string>)
    ensures '_' !in NormalisedLanguage(Some(Php.Before(NormalisedLanguage(code), '_')))
  {
    var lower := Php.ToLower(if code.Some? && Php.Truthy(code.value) then code.value else "en");
    var lang := NormalisedLanguage(code);
    Php.ReplaceCharAt(lower, '-', '_');
    var b := Php.Before(lang, '_');
    assert forall i :: 0 <= i < |b| ==> b[i] == lang[i];
    var c := if Php.Truthy(b) then b else "en";
    var l := Php.ToLower(c);
    Php.ToLowerAt(c);
    Php.ReplaceCharAt(l, '-', '_');
    forall i | 0 <= i < |l| ensures l[i] != '_' && l[i] != '-' {
      assert c[i] != '_' && c[i] != '-';
    }
  }

  /** A negotiation that does not return the code itself returns its prefix's, or `en`. */
  lemma {:induction false} LanguageFallback(code: Option<string>)
    ensures var lang := NormalisedLanguage(code);
      lang in SupportedLanguages ==> SupportedLanguage(code) == lang
    ensures var lang := NormalisedLanguage(code);
      lang !in SupportedLanguages ==>
        SupportedLanguage(code) ==
          if '_' in lang && NormalisedLanguage(Some(Php.Before(lang, '_'))) in SupportedLanguages
          then NormalisedLanguage(Some(Php.Before(lang, '_')))
          else "en"
  {
    var lang := NormalisedLanguage(code);
    if lang !in SupportedLanguages && '_' in lang {
      PrefixHasNoSeparator(code);
    }
  }

  /** An absent code negotiates to `en`. */
  lemma AbsentLanguageIsEnglish()
    ensures SupportedLanguage(None) == "en"
  {
    Php.ToLowerAt("en");
    assert Php.ToLower("en") == "en";
    Php.ReplaceCharAt("en", '-', '_');
    assert NormalisedLanguage(None) == "en";
  }

  /** A region code written with a hyphen and capitals is found once normalised. */
  lemma RegionalLanguageExample()
    ensures SupportedLanguage(Some("en-GB")) == "en_gb"
  {
    Php.ToLowerAt("en-GB");
    assert Php.ToLower("en-GB") == "en-gb";
    Php.ReplaceCharAt("en-gb", '-', '_');
    assert NormalisedLanguage(Some("en-GB")) == "en_gb";
  }

  // ---------------------------------------------------------------------------------------
  // Customer name

  /**
   * `explode(' ', name, 2)` as createAccount destructures it: the first name is the text before
   * the first space, the last name everything after it, and absent when there is no space.
   */
  function SplitName(name: string): (r: (string, Option<string>))
    ensures ' ' !in r.0
    ensures r.1.None? <==> ' ' !in name
    ensures r.1.None? ==> r.0 == name
    ensures r.1.Some? ==> name == r.0 + " " + r.1.value
  {
    var first := Php.Before(name, ' ');
    if |first| == |name| then (name, None)
    else
      assert name == first + " " + name[|first| + 1..];
      (first, Some(name[|first| + 1..]))
  }

  // ---------------------------------------------------------------------------------------
  // Plans

  /** getPlan's first test: a numeric token equal, as an integer, to the entry's `planId`. */
  predicate IdMatches(entry: Json, token: string) {
    Php.IsNumeric(token) && ToInt(Index(entry, "planId")) == Php.ParseInt(token)
  }

  /**
   * getPlan's second test: the entry's `planName`, lower-cased, equals the lower-cased token.
   * `strtolower` of an array is a TypeError, so an array name never matches.
   */
  predicate NameMatches(entry: Json, token: string) {
    !IsArray(Index(entry, "planName")) && Php.ToLower(ToText(Index(entry, "planName"))) == Php.ToLower(token)
  }

  predicate PlanMatches(entry: Json, token: string) {
    IdMatches(entry, token) || NameMatches(entry, token)
  }

  /** The entry stops the loop with a TypeError: its id does not match and its name is an array. */
  predicate NameUnreadable(entry: Json, token: string) {
    !IdMatches(entry, token) && IsArray(Index(entry, "planName"))
  }

  /** Where getPlan's loop stops: at a match, at an unreadable name, or nowhere. */
  datatype Scan = Found(index: nat) | Unreadable(index: nat) | Missing

  /** The loop passes over `entries[j]` without stopping. */
  predicate PassesOver(entries: seq<Json>, token: string, j: int)
    requires 0 <= j < |entries|
  {
    !PlanMatches(entries[j], token) && !NameUnreadable(entries[j], token)
  }

  /**
   * The scan of getPlan's `foreach` from position `i` on: it stops at the first entry that
   * matches or cannot be read, and passes over every entry before it.
   */
  function PlanScan(entries: seq<Json>, token: string, i: nat): (r: Scan)
    requires i <= |entries|
    ensures r.Found? ==> i <= r.index < |entries| && PlanMatches(entries[r.index], token)
    ensures r.Unreadable? ==> i <= r.index < |entries| && NameUnreadable(entries[r.index], token)
    ensures var stop := if r.Missing? then |entries| else r.index;
      forall j :: i <= j < stop ==> PassesOver(entries, token, j)
    decreases |entries| - i
  {
    if i == |entries| then Missing
    else if PlanMatches(entries[i], token) then Found(i)
    else if IsArray(Index(entries[i], "planName")) then Unreadable(i)
    else PlanScan(entries, token, i + 1)
  }

  /** getPlan's outcome for the decoded catalog `plans`. */
  function PlanResult(plans: Json, token: string): (r: Result<Json, Exception>)
    ensures var scan := PlanScan(Values(plans), token, 0);
      r.Ok? <==> scan.Found? && IsArray(Values(plans)[scan.index])
    ensures r.Ok? ==> r.value == Values(plans)[PlanScan(Values(plans), token, 0).index]
    ensures PlanScan(Values(plans), token, 0).Missing? ==>
      r == Err(ProvisionError("Plan '" + token + "' not found", PlanCatalog(plans)))
  {
    var entries := Values(plans);
    match PlanScan(entries, token, 0)
    case Found(k) => if IsArray(entries[k]) then Ok(entries[k]) else Err(TypeError)
    case Unreadable(_) => Err(TypeError)
    case Missing => Err(ProvisionError("Plan '" + token + "' not found", PlanCatalog(plans)))
  }

  /** Tokens that differ only in letter case match the same plans. */
  lemma PlanMatchIgnoresCase(entry: Json, t: string, t': string)
    requires Php.ToLower(t) == Php.ToLower(t')
    ensures PlanMatches(entry, t) <==> PlanMatches(entry, t')
    ensures NameUnreadable(entry, t) <==> NameUnreadable(entry, t')
  {
    Php.ToLowerAt(t);
    Php.ToLowerAt(t');
    assert |t| == |t'|;
    forall i | 0 <= i < |t| ensures (Php.IsDigit(t[i]) || t[i] == '-' || t[i] == '+' ==> t'[i] == t[i]) {
      assert Php.LowerChar(t[i]) == Php.LowerChar(t'[i]);
    }
    forall i | 0 <= i < |t| ensures (Php.IsDigit(t'[i]) || t'[i] == '-' || t'[i] == '+' ==> t'[i] == t[i]) {
      assert Php.LowerChar(t[i]) == Php.LowerChar(t'[i]);
    }
    if Php.IsNumeric(t) || Php.IsNumeric(t') {
      assert t == t';
    }
  }

  /** A catalog plan matches a token by id or by name, ignoring case. */
  predicate CatalogMatch(p: Plan, token: string) {
    (Php.IsNumeric(token) && p.id == Php.ParseInt(token)) || Php.ToLower(p.name) == Php.ToLower(token)
  }

  /** On the entries the platform lists, the loop's tests are the catalog match, and never fail. */
  lemma PlanJsonMatches(p: Plan, token: string)
    ensures PlanMatches(PlanJson(p), token) <==> CatalogMatch(p, token)
    ensures !NameUnreadable(PlanJson(p), token)
  {
    LookupAt(PlanJson(p).members, 0);
    LookupAt(PlanJson(p).members, 1);
  }

  /** The decoded plan list as the platform sends it. */
  function CatalogJson(catalog: seq<Plan>): (r: seq<Json>)
    ensures |r| == |catalog| && forall k :: 0 <= k < |r| ==> r[k] == PlanJson(catalog[k])
  {
    seq(|catalog|, k requires 0 <= k < |catalog| => PlanJson(catalog[k]))
  }

  /**
   * getPlan's scan over the list the platform sends for its catalog finds the first catalog plan
   * that matches the token, and fails with "not found" exactly when none does.  (The platform
   * sends an empty catalog as `[]`, which the request already rejects: see
   * `GetPlanAgainstPlatform`.)
   */
  lemma {:induction false} PlanFromCatalog(catalog: seq<Plan>, token: string)
    ensures var r := PlanResult(JList(CatalogJson(catalog)), token);
      && (r.Ok? <==> exists k :: 0 <= k < |catalog| && CatalogMatch(catalog[k], token))
      && (r.Ok? ==> exists k :: (0 <= k < |catalog| && r.value == PlanJson(catalog[k]) && CatalogMatch(catalog[k], token)
                                 && forall j :: 0 <= j < k ==> !CatalogMatch(catalog[j], token)))
      && (r.Err? ==> r.error == ProvisionError("Plan '" + token + "' not found", PlanCatalog(JList(CatalogJson(catalog)))))
  {
    var entries := CatalogJson(catalog);
    var scan := PlanScan(entries, token, 0);
    forall k | 0 <= k < |catalog| ensures (PlanMatches(entries[k], token) <==> CatalogMatch(catalog[k], token)) && !NameUnreadable(entries[k], token) {
      PlanJsonMatches(catalog[k], token);
    }
    match scan
    case Found(k) =>
      assert forall j :: 0 <= j < k ==> !CatalogMatch(catalog[j], token) by {
        forall j | 0 <= j < k ensures !CatalogMatch(catalog[j], token) {
          assert PassesOver(entries, token, j);
        }
      }
    case Unreadable(k) =>
      assert false;
    case Missing =>
      forall k | 0 <= k < |catalog| ensures !CatalogMatch(catalog[k], token) {
        assert PassesOver(entries, token, k);
      }
  }

  // ---------------------------------------------------------------------------------------
  // Account info

  /** The normalised account state every lifecycle operation returns. */
  datatype AccountInfo = AccountInfo(
    siteBuilderUserId: Option<string>,
    accountReference: string,
    domainName: Option<string>,
    packageReference: string,
    suspended: Option<bool>,
    ipAddress: Option<string>,
    isPublished: bool,
    hasSsl: Option<bool>,
    permissions: string,
    message: Option<string>)

  /** A decoded value stored in a text field of the account info: null stays absent. */
  function TextField(j: Json): Option<string> {
    if j.JNull? then None else Some(ToText(j))
  }

  /**
   * getInfo's mapping of the account, site, site-plan and permissions responses (PHP null is
   * `JNull`).  Joining a `permissions` member that is neither null nor an array is a TypeError.
   */
  function MapInfo(account: Json, siteId: string, site: Json, plan: Json, permissions: Json): (r: Result<AccountInfo, Exception>)
    ensures r.Ok? <==> Index(permissions, "permissions").JNull? || IsArray(Index(permissions, "permissions"))
    ensures r.Err? ==> r.error == TypeError
    ensures r.Ok? ==> var info := r.value;
      && info.siteBuilderUserId == TextField(Index(account, "account_name"))
      && info.accountReference == siteId
      && info.domainName == TextField(Coalesce(Index(site, "site_domain"), Index(site, "site_default_domain")))
      && info.packageReference == (if Index(plan, "planName").JNull? then "unknown" else ToText(Index(plan, "planName")))
      && info.suspended.None? && info.ipAddress.None? && info.hasSsl.None? && info.message.None?
      && (info.isPublished <==> LooselyEquals(Index(site, "publish_status"), "PUBLISHED"))
      && info.permissions == Php.Implode(',', Texts(Values(Index(permissions, "permissions"))))
  {
    var granted := Index(permissions, "permissions");
    if !granted.JNull? && !IsArray(granted) then Err(TypeError)
    else
      Ok(AccountInfo(
        siteBuilderUserId := TextField(Index(account, "account_name")),
        accountReference := siteId,
        domainName := TextField(Coalesce(Index(site, "site_domain"), Index(site, "site_default_domain"))),
        packageReference := TextField(Index(plan, "planName")).GetOr("unknown"),
        suspended := None,
        ipAddress := None,
        isPublished := LooselyEquals(Index(site, "publish_status"), "PUBLISHED"),
        hasSsl := None,
        permissions := Php.Implode(',', Texts(Values(granted))),
        message := None))
  }

  function Texts(js: seq<Json>): (r: seq<string>)
    ensures |r| == |js| && forall k :: 0 <= k < |r| ==> r[k] == ToText(js[k])
  {
    if js == [] then [] else [ToText(js[0])] + Texts(js[1..])
  }

  /**
   * Mapped from the platform's own replies, the info is the platform's state: published exactly
   * when the site is, the catalog name of the site's plan (or `unknown`), its own domain or the
   * default one, and the granted permissions joined with commas.
   */
  lemma InfoReflectsPlatform(st: State, a: string, s: string)
    requires a in st.accounts && s in st.sites
    ensures var granted := if (a, s) in st.permissions then st.permissions[(a, s)] else [];
      var site := st.sites[s];
      var r := MapInfo(JObj([Member("account_name", JStr(a))]), s, SiteJson(s, site),
        SitePlanJson(st.catalog, site.planId), JObj([Member("permissions", JList(Strings(granted)))]));
      && r.Ok?
      && r.value.siteBuilderUserId == Some(a)
      && r.value.isPublished == site.published
      && r.value.domainName == Some(site.domain.GetOr(DefaultDomain(s)))
      && r.value.packageReference == (match PlanById(st.catalog, site.planId)
                                      case Some(p) => p.name
                                      case None => "unknown")
      && r.value.permissions == Php.Implode(',', granted)
  {
    var granted := if (a, s) in st.permissions then st.permissions[(a, s)] else [];
    var site := st.sites[s];
    var account := JObj([Member("account_name", JStr(a))]);
    var permissions := JObj([Member("permissions", JList(Strings(granted)))]);
    assert Index(account, "account_name") == JStr(a) by { LookupAt(account.members, 0); }
    assert Index(permissions, "permissions") == JList(Strings(granted)) by { LookupAt(permissions.members, 0); }
    SiteJsonFields(s, site);
    SiteJsonDomain(s, site);
    SitePlanJsonName(st.catalog, site.planId);
    TextsOfStrings(granted);
  }

  /** The members of a site's JSON as the platform reports them. */
  lemma SiteJsonFields(s: string, site: Site)
    ensures Index(SiteJson(s, site), "publish_status") == JStr(PublishStatus(site.published))
    ensures Index(SiteJson(s, site), "site_default_domain") == JStr(DefaultDomain(s))
  {
    var ms := SiteJson(s, site).members;
    LookupAt(ms, |ms| - 1);
    LookupAt(ms, |ms| - 2);
  }

  /** The domain member of a site's JSON: the site's domain, or absent. */
  lemma SiteJsonDomain(s: string, site: Site)
    ensures Index(SiteJson(s, site), "site_domain") == if site.domain.Some? then JStr(site.domain.value) else JNull
  {
    if site.domain.Some? {
      LookupAt(SiteJson(s, site).members, 1);
    }
  }

  /** The plan name in a site-plan reply is the catalog's name for the plan, or absent. */
  lemma SitePlanJsonName(catalog: seq<Plan>, id: int)
    ensures Index(SitePlanJson(catalog, id), "planName") == match PlanById(catalog, id)
      case Some(p) => JStr(p.name)
      case None => JNull
  {
    match PlanById(catalog, id)
    case Some(p) => LookupAt(PlanJson(p).members, 1);
    case None =>
  }

  lemma TextsOfStrings(xs: seq<string>)
    ensures Texts(Strings(xs)) == xs
  {
    assert forall k :: 0 <= k < |xs| ==> Texts(Strings(xs))[k] == xs[k];
  }

  // ---------------------------------------------------------------------------------------
  // Response bodies

  /**
   * What makeRequest makes of a reply body: an empty body is null; a body that does not decode,
   * or decodes to a falsy value, is "Unknown Provider API Error" carrying the raw text; a truthy
   * scalar breaks parseResponseData's `array` return type; an array is the result.
   */
  function ClassifyBody(b: Body): (r: Result<Json, Exception>)
    ensures r == Ok(JNull) <==> b.raw == ""
    ensures r.Ok? ==> r.value.JNull? || (IsArray(r.value) && !Falsy(r.value))
    ensures r.Err? ==> r.error == TypeError || r.error == ProvisionError("Unknown Provider API Error", RawResponse(b.raw))
  {
    if b.raw == "" then Ok(JNull)
    else match b.decoded
      case Invalid => Err(ProvisionError("Unknown Provider API Error", RawResponse(b.raw)))
      case Value(j) =>
        if Falsy(j) then Err(ProvisionError("Unknown Provider API Error", RawResponse(b.raw)))
        else if !IsArray(j) then Err(TypeError)
        else Ok(j)
  }

  /**
   * The classification: an empty body is null, a non-empty body is accepted exactly when it
   * decodes to a non-empty array (and is then that array), and a body that does not decode or
   * decodes to a falsy value is the unknown-error carrying the raw text.
   */
  lemma ClassifyBodyCases(b: Body)
    ensures var r := ClassifyBody(b);
      && (b.raw == "" ==> r == Ok(JNull))
      && (b.raw != "" && (b.decoded.Invalid? || Falsy(b.decoded.json)) ==>
            r == Err(ProvisionError("Unknown Provider API Error", RawResponse(b.raw))))
      && (b.raw != "" ==> (r.Ok? <==> b.decoded.Value? && IsArray(b.decoded.json) && !Falsy(b.decoded.json)))
      && (r.Ok? && b.raw != "" ==> r.value == b.decoded.json)
      && (r.Ok? ==> r.value.JNull? || IsArray(r.value))
  {
  }

  /** The platform's own non-empty replies are always accepted as they decode. */
  lemma JsonBodyAccepted(members: seq<Member>)
    requires members != []
    ensures ClassifyBody(JsonBody(JObj(members))) == Ok(JObj(members))
  {
  }

  // ---------------------------------------------------------------------------------------
  // SSO login

  /** The SSO target: the configured destination when it is truthy, else `EDITOR`. */
  function SsoTarget(destination: Option<string>): (r: string)
    ensures destination.Some? && Php.Truthy(destination.value) ==> r == destination.value
    ensures destination.None? || !Php.Truthy(destination.value) ==> r == "EDITOR"
  {
    if destination.Some? && Php.Truthy(destination.value) then destination.value else "EDITOR"
  }

  /**
   * login's catch block retries with `EDITOR` only for a client error whose message contains a
   * configured (truthy) destination; it rethrows everything else.
   */
  predicate RetriesWithEditor(destination: Option<string>, e: Exception) {
    e.ClientError? && destination.Some? && Php.Truthy(destination.value)
    && Php.Contains(e.message, destination.value)
  }

  /** A retry only ever follows a request that used the configured destination itself. */
  lemma RetryOnlyForConfiguredTarget(destination: Option<string>, e: Exception)
    requires RetriesWithEditor(destination, e)
    ensures SsoTarget(destination) == destination.value
    ensures exists k :: Php.OccursAt(e.message, SsoTarget(destination), k)
  {
    Php.ContainsOccurs(e.message, destination.value);
  }
}

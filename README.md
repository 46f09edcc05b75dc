# Duda website-builder adapter, modelled in Dafny

The Duda adapter provisions Duda sites for a hosting control panel. It has two parts:

- the helper `DudaApi` (src/Providers/Duda/Helper/DudaApi.php). It wraps Duda's REST API and
  holds the domain rules: permission canonicalisation, language negotiation, plan lookup, the
  customer-name split, the mapping of site data into the account-info record, the
  classification of response bodies, the SSO-login retry, and the call sequences of site
  creation and package change;
- the provider `Provider` (src/Providers/Duda/Provider.php). It implements the lifecycle
  operations on top of the helper: create, getInfo, login, changePackage, suspend, unSuspend
  and terminate. It also owns the permission defaulting, the translation of HTTP exceptions
  into provision errors, and the memoised API handle.

The model has seven modules, one file each:

| file | module | what it holds |
|---|---|---|
| wrappers.dfy | `Wrappers` | `Option` and `Result` |
| php.dfy | `Php` | the PHP built-ins the code relies on: truthiness, `empty`, `strtolower`/`strtoupper`, `trim`, `str_replace` of one character, `explode`/`implode`, `Str::contains`, `Str::before`, `is_numeric` and integer/text conversions |
| json.dfy | `Json` | decoded JSON values with ordered objects, PHP falsiness of decoded values, array access `$a['k']` (the last member with the key), `??`, the loose `==` against a string, and the string casts |
| remote.dfy | `Remote` | the platform: the calls the adapter makes, the exceptions Guzzle throws, the platform state (plan catalog, accounts, sites, permissions keyed by account and site), the pure function `Respond` that answers a call, the wire form of each call, and class `Platform`, whose `log` records every call in order |
| duda_rules.dfy | `DudaRules` | the pure rules of DudaApi.php |
| duda_api.dfy | `DudaApi` | class `DudaApi` with one method per helper operation, each specified by a pure *run* |
| duda_provider.dfy | `DudaProvider` | the pure rules of Provider.php, the runs of its operations, and class `Provider` |

A *run* `Run(result, st, calls)` is the outcome of an operation that talks to the platform:
- the result or the exception the PHP code would throw;
- the platform's next state;
- the calls issued, in order.

Every method that calls the platform ensures `r == run.result && Performed(remote, run)`: the
platform's state is the run's state, and its log grew by the run's calls, exactly. Lemmas about
the runs state the promises of the code: call order, what changes, and what the results
carry. A call's reply can be forced with `Env.faults`, so the lemmas also cover every error
path.

## Model

| member | source | states |
|---|---|---|
| DudaRules.CanonicalAll | src/Providers/Duda/Helper/DudaApi.php:364-367 | every token is trimmed, has its spaces turned into `_` and is upper-cased, position by position |
| DudaRules.DropFalsy | src/Providers/Duda/Helper/DudaApi.php:368-369 | a string is kept exactly when it was in the input and is truthy (not "" and not "0") |
| DudaRules.Intersect | src/Providers/Duda/Helper/DudaApi.php:400 | `array_intersect` keeps only entries of the left list that occur in the right one |
| DudaRules.IntersectMembers | src/Providers/Duda/Helper/DudaApi.php:400 | both directions: x is in the intersection exactly when it is in both lists |
| DudaRules.IntersectAppend | src/Providers/Duda/Helper/DudaApi.php:400 | the intersection keeps the left list's order: intersecting `a + a'` is intersecting `a`, then `a'` |
| DudaRules.IntersectDropFalsy | src/Providers/Duda/Helper/DudaApi.php:368-400 | against a vocabulary of truthy tokens, dropping the falsy entries first changes nothing |
| DudaRules.IntersectCanonical | src/Providers/Duda/Helper/DudaApi.php:364-400 | canonicalising and then intersecting equals the token-by-token reference `KeepSupported`, so order and duplicates are preserved |
| DudaRules.SupportedTokensTruthy | src/Providers/Duda/Helper/DudaApi.php:372-398 | none of the 25 vocabulary tokens is falsy |
| DudaRules.SupportedPermissions | src/Providers/Duda/Helper/DudaApi.php:362-401 | every returned permission is one of the 25 vocabulary tokens |
| DudaRules.SupportedPermissionsIsKeepSupported | src/Providers/Duda/Helper/DudaApi.php:362-401 | getSupportedPermissions is the input, canonicalised token by token and filtered to the vocabulary, with input order and duplicates kept |
| DudaRules.SupportedPermissionsMembers | src/Providers/Duda/Helper/DudaApi.php:362-401 | both directions: x is returned exactly when it is a vocabulary token and some input token canonicalises to it |
| DudaRules.SupportedLanguage | src/Providers/Duda/Helper/DudaApi.php:320-351 | whatever the input, the negotiated code is one of the 14 supported codes |
| DudaRules.NormalisedLanguage | src/Providers/Duda/Helper/DudaApi.php:322-323 | the code looked up: the given code when truthy, else `en`, with its length kept, no `-` left and no capital letter left |
| DudaRules.PrefixHasNoSeparator | src/Providers/Duda/Helper/DudaApi.php:346-347 | the prefix before the first `_` normalises to a code without `_`, so the retry cannot recurse again |
| DudaRules.LanguageFallback | src/Providers/Duda/Helper/DudaApi.php:339-350 | the closed form of the negotiation: a supported normalised code is returned unchanged; an unsupported one gives its prefix before the first `_` when that prefix is supported, and `en` otherwise |
| DudaRules.AbsentLanguageIsEnglish | src/Providers/Duda/Helper/DudaApi.php:322-323 | an absent code negotiates to `en` |
| DudaRules.RegionalLanguageExample | src/Providers/Duda/Helper/DudaApi.php:323-343 | `en-GB` negotiates to `en_gb` |
| DudaRules.SplitName | src/Providers/Duda/Helper/DudaApi.php:141 | the first name has no space; the last name is absent exactly when the name has no space, and the first name is then the whole name; otherwise name == first + " " + last |
| DudaRules.PlanScan | src/Providers/Duda/Helper/DudaApi.php:80-88 | the scan stops at the first entry that matches by numeric id or by lower-cased name (or whose name is an array, a TypeError), and passes over every entry before it |
| DudaRules.PlanResult | src/Providers/Duda/Helper/DudaApi.php:76-92 | getPlan succeeds exactly when the scan finds an entry that is an array, and returns that entry; with no match it fails with `Plan '<token>' not found` and carries the plan list |
| DudaRules.PlanMatchIgnoresCase | src/Providers/Duda/Helper/DudaApi.php:85 | tokens that agree once lower-cased match the same entries |
| DudaRules.PlanJsonMatches | src/Providers/Duda/Helper/DudaApi.php:81-85 | a catalog plan matches a token exactly when its id equals the numeric token or its name equals the token ignoring case |
| DudaRules.CatalogJson | src/Providers/Duda/Helper/DudaApi.php:78 | the plan list as the platform sends it: one entry per catalog plan, in catalog order |
| DudaRules.PlanFromCatalog | src/Providers/Duda/Helper/DudaApi.php:80-91 | getPlan's scan over the list the platform sends for its catalog succeeds exactly when some plan matches, and returns the first match in catalog order; otherwise it fails with the not-found error carrying that list |
| DudaApi.GetPlanAgainstPlatform | src/Providers/Duda/Helper/DudaApi.php:56-92 | getPlan against the platform issues one query and changes nothing; an empty catalog arrives as `[]`, which is falsy, so it fails with `Unknown Provider API Error` carrying the raw `[]`; any other catalog gives the scan's result as PlanFromCatalog states it |
| DudaRules.MapInfo | src/Providers/Duda/Helper/DudaApi.php:106-118 | the record: published exactly when `publish_status` equals `PUBLISHED`; domain is `site_domain`, else `site_default_domain`; package is `planName`, else `unknown`; suspended, ip address and ssl always null; permissions is the comma-joined text of the `permissions` member's entries; joining a permissions value that is neither null nor an array is a TypeError |
| DudaRules.Texts | src/Providers/Duda/Helper/DudaApi.php:117 | each permission entry as text, in order, for `implode` |
| DudaRules.InfoReflectsPlatform | src/Providers/Duda/Helper/DudaApi.php:99-119 | mapped from the platform's own replies, the info is the platform's state: published exactly when the site is, the catalog name of the site's plan or `unknown`, its own or its default domain, the granted permissions joined with commas |
| DudaRules.ClassifyBody | src/Providers/Duda/Helper/DudaApi.php:47-69 | null exactly for the empty body; any other accepted reply is a non-empty array; every failure is either the unknown error carrying the raw text or the TypeError of the `array` return type |
| DudaRules.ClassifyBodyCases | src/Providers/Duda/Helper/DudaApi.php:47-69 | an empty body is null; a body that does not decode, or decodes to something falsy, fails with `Unknown Provider API Error` and carries the raw text; otherwise the result is the decoded array, and a decoded scalar breaks the `array` return type |
| DudaRules.SsoTarget | src/Providers/Duda/Helper/DudaApi.php:205 | the SSO target is the configured destination when truthy, else `EDITOR` |
| DudaRules.RetryOnlyForConfiguredTarget | src/Providers/Duda/Helper/DudaApi.php:210-213 | a retry happens only after a request that used the configured destination, and only when the error message contains it |
| Json.Lookup | src/Providers/Duda/Helper/DudaApi.php:106-117 | `$a['k']` finds a value exactly when some member has the key, and the value found belongs to a member with that key |
| Json.LookupAt | src/Providers/Duda/Helper/DudaApi.php:106-117 | the member found is the last one with the key |
| Json.Values | src/Providers/Duda/Helper/DudaApi.php:80 | `foreach` over a decoded value: a list's items, an object's member values, nothing for a scalar |
| Json.CoerceString | src/Providers/Duda/Helper/DudaApi.php:220 | a value passed where a string is declared: a string is itself; null and arrays are TypeErrors |
| Php.Explode | src/Providers/Duda/Provider.php:239 | `explode` gives at least one piece, and no piece contains the separator |
| Php.ImplodeExplode | src/Providers/Duda/Provider.php:239 | joining the pieces back gives the original string |
| Php.ExplodeImplode | src/Providers/Duda/Provider.php:239 | splitting a join of separator-free pieces gives the pieces back |
| Php.Before | src/Providers/Duda/Helper/DudaApi.php:347 | `Str::before` is the longest prefix without the character, and the whole string when the character is absent |
| Php.TrimInfix | src/Providers/Duda/Helper/DudaApi.php:366 | `trim` returns an infix of its input |
| Php.TrimEnds | src/Providers/Duda/Helper/DudaApi.php:366 | the result of `trim` neither starts nor ends with a character `trim` strips |
| Php.TrimFixed | src/Providers/Duda/Helper/DudaApi.php:366 | a string with no strippable character at either end is its own `trim` |
| Php.ToLowerIdempotent | src/Providers/Duda/Helper/DudaApi.php:85 | lower-casing twice is lower-casing once |
| Php.IntToStringRoundTrip | src/Providers/Duda/Helper/DudaApi.php:81 | an integer's decimal text is numeric and reads back as the same integer |
| Php.ContainsOccurs | src/Providers/Duda/Helper/DudaApi.php:211 | `Str::contains` holds exactly when the needle is non-empty and occurs in the text |
| Remote.RequestFor | src/Providers/Duda/Helper/DudaApi.php:29-42 | the request: GET exactly for the queries, DELETE only for terminate; the path starts `/api/`; a query only for the SSO link (site name and target); a JSON body exactly for the calls that send one |
| Remote.Platform.Send | src/Providers/Duda/Helper/DudaApi.php:42 | the platform answers a request as `Respond` says and appends its call to the log |
| DudaApi.FirstMatchingPlan | src/Providers/Duda/Helper/DudaApi.php:80-91 | getPlan's `foreach` with early return computes `PlanScan` from the first entry |
| DudaApi.DudaApi.constructor | src/Providers/Duda/Helper/DudaApi.php:20-24 | the helper keeps its client and configuration |
| DudaApi.DudaApi.MakeRequest | src/Providers/Duda/Helper/DudaApi.php:29-52 | one request with the call's wire form; the reply is classified as ClassifyBodyCases states; the log grows by this one call |
| DudaApi.DudaApi.GetPlan | src/Providers/Duda/Helper/DudaApi.php:76-92 | performs `GetPlanRun`: lists the plans, then scans them |
| DudaApi.DudaApi.GetAccountData | src/Providers/Duda/Helper/DudaApi.php:126-129 | performs `GetAccountRun`: one account query, and an empty reply breaks the `array` return type |
| DudaApi.DudaApi.GetInfo | src/Providers/Duda/Helper/DudaApi.php:99-119 | performs `GetInfoRun`: the account, site, site-plan and permission queries in that order, then `MapInfo` |
| DudaApi.DudaApi.CreateAccount | src/Providers/Duda/Helper/DudaApi.php:136-154 | performs `CreateAccountRun`: the creation call, then the account read back by the email |
| DudaApi.DudaApi.Suspend | src/Providers/Duda/Helper/DudaApi.php:161-164 | one unpublish call |
| DudaApi.DudaApi.Unsuspend | src/Providers/Duda/Helper/DudaApi.php:171-174 | one publish call |
| DudaApi.DudaApi.Terminate | src/Providers/Duda/Helper/DudaApi.php:228-231 | one delete call |
| DudaApi.DudaApi.ChangePlan | src/Providers/Duda/Helper/DudaApi.php:310-313 | one plan-change call |
| DudaApi.DudaApi.SetSitePermissions | src/Providers/Duda/Helper/DudaApi.php:278-288 | one grant call carrying `SupportedPermissions` of the request |
| DudaApi.DudaApi.GetSitePermissions | src/Providers/Duda/Helper/DudaApi.php:297-302 | one permissions query; the `permissions` member, `[]` when absent, and a TypeError for a scalar |
| DudaApi.DudaApi.ChangePackage | src/Providers/Duda/Helper/DudaApi.php:188-192 | performs `ChangePackageRun`: grant, then plan change |
| DudaApi.DudaApi.Login | src/Providers/Duda/Helper/DudaApi.php:201-221 | performs `LoginRun` with the configured destination |
| DudaApi.DudaApi.CreateSite | src/Providers/Duda/Helper/DudaApi.php:246-270 | performs `CreateSiteRun` |
| DudaApi.DudaApi.SetUpSite | src/Providers/Duda/Helper/DudaApi.php:264-269 | performs `SetUpSiteRun`: grant, publish, plan change, for a new site |
| DudaApi.RequestIssuesItsCall | src/Providers/Duda/Helper/DudaApi.php:42-51 | one request issues exactly its call and is answered as the platform answers it; a query changes nothing |
| DudaApi.GetInfoOnlyReads | src/Providers/Duda/Helper/DudaApi.php:99-104 | getInfo leaves the platform as it was and issues a prefix of its four queries in order, all four when it succeeds |
| DudaApi.GetInfoSeesPublishStatus | src/Providers/Duda/Helper/DudaApi.php:102-106 | when the site query is answered by the platform, a successful getInfo reports the site's actual publish status |
| DudaApi.CreateAccountBody | src/Providers/Duda/Helper/DudaApi.php:141-146 | the creation body names the email as `account_name`, and the two halves of `SplitName` of the customer name as `first_name` and `last_name` (null without a space) |
| DudaApi.CreateAccountBodyKind | src/Providers/Duda/Helper/DudaApi.php:147-148 | the creation body asks for the negotiated language and account type `CUSTOMER` |
| DudaApi.CreateAccountCalls | src/Providers/Duda/Helper/DudaApi.php:151-153 | createAccount issues the creation call, then the read of the account named by the email, stopping at the first failure |
| DudaApi.LoginAsksAtMostTwice | src/Providers/Duda/Helper/DudaApi.php:201-221 | login never changes the platform; it asks for the configured target (or EDITOR), and a second time for EDITOR only after a client error naming the configured target; any other failure is rethrown unchanged |
| DudaApi.LoginFallsBackToEditor | src/Providers/Duda/Helper/DudaApi.php:201-221 | when the platform refuses the configured target but offers EDITOR, login asks twice, for the target and then for EDITOR, and returns the EDITOR link |
| DudaApi.LoginServesLink | src/Providers/Duda/Helper/DudaApi.php:201-220 | when the platform offers the configured target (EDITOR when none is configured), login asks once, changes nothing, and returns the link the reply's `url` names |
| DudaApi.RejectedTargetRetried | src/Providers/Duda/Helper/DudaApi.php:208-213 | the platform's refusal of a target is a client error whose message names the target, so the retry condition holds |
| DudaApi.EditorLinkServed | src/Providers/Duda/Helper/DudaApi.php:216-220 | an EDITOR link the platform offers is accepted and its `url` is the platform's SSO link |
| DudaApi.ChangePackageOrder | src/Providers/Duda/Helper/DudaApi.php:188-192 | changePackage grants the supported permissions, then changes the plan, stopping at the first failure |
| DudaApi.SetUpSiteOrder | src/Providers/Duda/Helper/DudaApi.php:264-269 | grant, publish, plan change, in that order, stopping at the first failure; on success the site id |
| DudaApi.CreateSiteOrder | src/Providers/Duda/Helper/DudaApi.php:246-270 | createSite creates the site first; only with a `site_name` in the reply does it go on to grant, publish and change plan, in that order; on success it returns that `site_name` |
| DudaProvider.Without | src/Providers/Duda/Provider.php:258 | `array_diff` never lengthens the list |
| DudaProvider.WithoutMembers | src/Providers/Duda/Provider.php:258 | both directions: an entry stays exactly when it is not one of those removed |
| DudaProvider.WithoutNothing | src/Providers/Duda/Provider.php:258 | removing what is not there changes nothing |
| DudaProvider.WithoutAppend | src/Providers/Duda/Provider.php:258 | removal keeps the order of what stays |
| DudaProvider.DefaultsByPlan | src/Providers/Duda/Provider.php:252-262 | the configured defaults, or the built-in six; on a plan whose upper-cased name is `FREE` they are the list without PUBLISH and REPUBLISH (`Without`, whose order WithoutAppend gives), with no copy of those two and every copy of each other entry, so order and multiplicity are kept; on any other plan they are returned unchanged |
| DudaProvider.DetDefaultPermissions | src/Providers/Duda/Provider.php:252-262 | on a FREE plan neither PUBLISH nor REPUBLISH is granted; every entry comes from the built-in defaults or the configured list |
| DudaProvider.PublishRemoved | src/Providers/Duda/Provider.php:256-259 | removing PUBLISH and REPUBLISH leaves no copy of either and every copy of every other entry |
| DudaProvider.WithoutCount | src/Providers/Duda/Provider.php:258 | `array_diff` removes every copy of a removed entry and keeps every copy of the others |
| DudaProvider.DetDefaultPermissionsAsWritten | src/Providers/Duda/Provider.php:252-262 | with the configured string the configuration accepts, any truthy value is a TypeError (`array_diff` on a FREE plan, the `array` return type on any other); a falsy one gives the built-in defaults for the plan |
| DudaProvider.IntendedDefaults | src/Providers/Duda/Provider.php:252-262 | the intended reading: on a FREE plan neither PUBLISH nor REPUBLISH is granted; every entry is a built-in default or a truthy entry of the configured list |
| DudaProvider.IntendedDefaultsAgree | src/Providers/Duda/Provider.php:252-262 | reading the configured string as a comma-separated list gives exactly what DetDefaultPermissions gives for the list it names |
| DudaProvider.ConfiguredListHonoured | src/Providers/Duda/Provider.php:254-261 | under that reading, a configured list of truthy entries is granted entry for entry on a plan that is not FREE |
| DudaProvider.ConfiguredDefaultsRejected | src/Providers/Duda/Provider.php:254-261 | configuring `EDIT,STATS_TAB` makes the code as written throw a TypeError, where the intended reading grants EDIT and STATS_TAB |
| DudaProvider.FreePlanDefaults | src/Providers/Duda/Provider.php:31-38 | with nothing configured, a FREE plan gets STATS_TAB, EDIT, LIMITED_EDITING, RESET, in that order |
| DudaProvider.DropFalsyKeepsTruthy | src/Providers/Duda/Provider.php:239 | `array_filter` leaves a list of truthy entries as it is |
| DudaProvider.ListedPermissionsKept | src/Providers/Duda/Provider.php:237-242 | a comma-separated list of truthy entries comes back entry for entry: not trimmed, not upper-cased, not checked against the vocabulary, and never replaced by the defaults |
| DudaProvider.DefaultsOnlyForEmptyList | src/Providers/Duda/Provider.php:239-241 | the defaults are used exactly when no entry of the list is truthy; otherwise the result is non-empty and holds exactly the truthy entries |
| DudaProvider.PermissionsFor | src/Providers/Duda/Provider.php:237-242 | every truthy entry of the order's list is granted; every granted entry is a truthy listed entry or one of the plan's defaults |
| DudaProvider.HandleException | src/Providers/Duda/Provider.php:270-289 | a request exception that carries a response becomes a provision error; any other exception is rethrown unchanged |
| DudaProvider.ApiError | src/Providers/Duda/Provider.php:273-285 | the translated error is a provision error whose message starts `Provider API Error: `, carrying the decoded body (null when it does not decode) |
| DudaProvider.TranslatedMessage | src/Providers/Duda/Provider.php:273-285 | the translated error reads `Provider API Error: ` followed by the body's `message`, or by the reason phrase when there is none, and carries the decoded body |
| DudaProvider.HandleExceptionIdempotent | src/Providers/Duda/Provider.php:270-289 | translating twice is translating once |
| DudaProvider.Guarded | src/Providers/Duda/Provider.php:63-89 | the `catch` around an operation keeps its calls, state and result, and passes an exception through `HandleException` |
| DudaProvider.AccountInfoOnlyReads | src/Providers/Duda/Provider.php:108-117 | getAccountInfo changes nothing on the platform; without a user id it fails with `Site builder user id is required` before any call; on success it carries the given message or `Account data obtained` |
| DudaProvider.AccountInfoSeesPublishStatus | src/Providers/Duda/Provider.php:108-117 | when the site query is answered by the platform, a successful info fetch reports the site's actual publish status |
| DudaProvider.UserIdRequired | src/Providers/Duda/Provider.php:110-112 | getInfo, login, suspend and unSuspend fail with `Site builder user id is required` before any call when the user id is empty |
| DudaProvider.ChangePackageNeedsUserId | src/Providers/Duda/Provider.php:145-147 | changePackage fails with `Site builder user id is required` before any call when the user id is empty |
| DudaProvider.CreateNeedsDomain | src/Providers/Duda/Provider.php:64-66 | create fails with `Domain name is required!` before any call when the domain is empty |
| DudaProvider.SuspendGuard | src/Providers/Duda/Provider.php:168-184 | info shown unpublished: no change to the platform, and the info comes back with only its message set to `Account already unpublished`; shown published: exactly one change, the unpublish, and on success the info with `is_published` false and `Account suspended/unpublished` |
| DudaProvider.UnSuspendGuard | src/Providers/Duda/Provider.php:190-212 | a FREE plan gets no change, whatever the publish state, and this check comes first; a published site gets no change; any other site exactly one change, the publish, and on success `is_published` true; each with its message |
| DudaProvider.SuspendLeavesUnpublished | src/Providers/Duda/Provider.php:171-179 | a suspend whose info fetch succeeds leaves the site unpublished on the platform |
| DudaProvider.SuspendTwice | src/Providers/Duda/Provider.php:168-184 | two suspends in a row change the platform at most once between them |
| DudaProvider.AccountStepCalls | src/Providers/Duda/Provider.php:70-76 | with a user id, the account is read and nothing else is called; without one, the customer's account is created first |
| DudaProvider.CreateSiteStepOrder | src/Providers/Duda/Provider.php:78-86 | the last step of create begins with the site creation and, on success, carries `Website created` |
| DudaProvider.CreateOrder | src/Providers/Duda/Provider.php:61-90 | create lists the plans first, then makes the account step's calls, then creates the site; on success the result carries `Website created` |
| DudaProvider.ChangePlanStepOrder | src/Providers/Duda/Provider.php:151-158 | once the plan is known, changePackage grants the permissions chosen for the plan's name, then moves the site to the plan's id; on success it carries `Package changed` |
| DudaProvider.ChangePackageStepsOrder | src/Providers/Duda/Provider.php:144-158 | changePackage lists the plans first, then grants and changes the plan as ChangePlanStepOrder says |
| DudaProvider.Provider.constructor | src/Providers/Duda/Provider.php:44-47 | a provider starts with its configuration and no API handle |
| DudaProvider.Provider.Api | src/Providers/Duda/Provider.php:291-313 | the first call builds a fresh helper over the provider's client and configuration; every later call returns that same helper |
| DudaProvider.Provider.GetAccountInfo | src/Providers/Duda/Provider.php:108-117 | performs `AccountInfoRun`; a helper already made stays the one in use |
| DudaProvider.Provider.GetInfo | src/Providers/Duda/Provider.php:96-103 | performs `GetInfoOpRun`, the guarded info fetch; a helper already made stays the one in use |
| DudaProvider.Provider.Login | src/Providers/Duda/Provider.php:123-136 | performs `LoginOpRun`: the user-id check, then the helper's login, guarded; a helper already made stays the one in use |
| DudaProvider.Provider.ChangePackage | src/Providers/Duda/Provider.php:142-162 | performs `ChangePackageOpRun`; a helper already made stays the one in use |
| DudaProvider.Provider.ChangePackageSteps | src/Providers/Duda/Provider.php:145-158 | performs `ChangePackageStepsRun`, the body of the `try`; a helper already made stays the one in use |
| DudaProvider.Provider.ChangePlanStep | src/Providers/Duda/Provider.php:151-158 | performs `ChangePlanStepRun`; a helper already made stays the one in use |
| DudaProvider.Provider.Suspend | src/Providers/Duda/Provider.php:168-184 | performs `SuspendRun`; a helper already made stays the one in use |
| DudaProvider.Provider.SuspendSteps | src/Providers/Duda/Provider.php:171-180 | performs `SuspendStepsRun`, the body of the `try`; a helper already made stays the one in use |
| DudaProvider.Provider.UnSuspend | src/Providers/Duda/Provider.php:190-212 | performs `UnSuspendRun`; a helper already made stays the one in use |
| DudaProvider.Provider.UnSuspendSteps | src/Providers/Duda/Provider.php:193-208 | performs `UnSuspendStepsRun`, the body of the `try`; a helper already made stays the one in use |
| DudaProvider.Provider.Terminate | src/Providers/Duda/Provider.php:218-227 | performs `TerminateRun`: one delete, then `Account Terminated`; a helper already made stays the one in use |
| DudaProvider.TerminateDeletesSite | src/Providers/Duda/Provider.php:218-227 | terminate issues exactly the delete of the site; an existing site is removed and `Account Terminated` returned, a missing one leaves the platform as it was and fails |
| DudaProvider.Provider.Create | src/Providers/Duda/Provider.php:61-90 | performs `CreateRun`; a helper already made stays the one in use |
| DudaProvider.Provider.CreateSteps | src/Providers/Duda/Provider.php:64-86 | performs `CreateStepsRun`, the body of the `try`; a helper already made stays the one in use |
| DudaProvider.Provider.AccountStep | src/Providers/Duda/Provider.php:70-76 | performs `AccountStepRun`; a helper already made stays the one in use |
| DudaProvider.Provider.CreateSiteStep | src/Providers/Duda/Provider.php:78-86 | performs `CreateSiteStepRun`; a helper already made stays the one in use |

## Where the code and its documentation differ

The model follows the code in each case but `default_permissions`, where the operations take the documented list and the code as written is modelled beside it:

- `getSupportedPermissions` and `getPermissions` filter with PHP truthiness, so the entry `"0"` is dropped as well as the empty one.
- The permission vocabulary has 25 tokens (src/Providers/Duda/Helper/DudaApi.php:372-398).
- login reads `sso_target_destination`, which the configuration class does not declare. It declares only a published and an unpublished variant. `Configuration.ssoTargetDestination` is therefore an optional input of its own.
- `default_permissions` is declared and validated as a comma-separated string (src/Providers/Duda/Data/Configuration.php:54), but `detDefaultPermissions` uses it as an array. `Configuration.defaultPermissions` holds the list that string names; the code as written is modelled beside it (see Findings).
- getPlan's loop never sees an empty catalog: the platform sends it as `[]`, which `parseResponseData` rejects as falsy, so getPlan fails with `Unknown Provider API Error` rather than `Plan '…' not found` (DudaApi.GetPlanAgainstPlatform).
- `template` and `delete_on_terminate` are never read: the site is always created with `template_id` 0, and terminate always deletes.
- create passes the order's raw language code to `createSite` (src/Providers/Duda/Provider.php:82). Only the account creation negotiates it.

## Findings

| source | as written | input that shows it | evidently intended | confidence | as-written member | corrected member |
|---|---|---|---|---|---|---|
| src/Providers/Duda/Provider.php:254-261 | the configured `default_permissions`, which the configuration accepts only as a string, reaches `array_diff` and the `array` return type as a string: a TypeError under strict types | `default_permissions` = `EDIT,STATS_TAB`, and an order that lists no truthy permission. Create then fails after the account call (src/Providers/Duda/Provider.php:70-84) | the string read as a comma-separated list, as its documentation says | medium, not executed | DudaProvider.DetDefaultPermissionsAsWritten, DudaProvider.ConfiguredDefaultsRejected | DudaProvider.IntendedDefaults, DudaProvider.IntendedDefaultsAgree |

## Left out

- Client construction in `api()`: base URI, headers, time-outs, handler stack, and the Basic-authentication header (RFC 7617, section 2). It is transport set-up over a library outside this model. `Provider.Api` keeps the memoisation.
- HTTP transport and the JSON codec. Each reply is a body's raw text plus its decoded form. For `handleException`, the decoded form stands for that of the trimmed body. JSON parsing itself (RFC 8259) is not modelled, and numbers with a fraction or an exponent have no constructor: the replies modelled carry integers only.
- `is_numeric` is abstracted to an optional sign followed by ASCII digits. Case mapping is ASCII only.
- Json.ToInt: the `(int)` cast reads only strings that are numeric in that sense and gives 0 for any other; PHP reads a leading integer (`"12abc"` and `" 12"` give 12, `"1.9"` gives 1). getPlan's id test is the only user, and it casts the entry's `planId` only after the token has passed `is_numeric`.
- The platform's refusals carry a message of the form `Client error: <reason> response: <message>`; Guzzle's own message shows the request line and a truncated body instead.
- Identifiers that the platform sends as integers are not modelled. Account names and site ids are text throughout, and plan ids are integers.
- `AccountInfo::create`'s validation and `LoginResult` are not modelled. The info is a record value, and `setMessage` and `setIsPublished` are record updates. Suspend and unSuspend update the fetched info in place; here they return the updated copy.
- The framework's `errorResult` and `okResult` throw or return. The extra data and the previous exception that `errorResult` receives in `handleException` are not modelled; only the translated error's message and response data are.
- `aboutProvider` is static metadata.
- The three data classes (src/Providers/Duda/Data/Configuration.php, src/Data/CreateParams.php and src/Data/ChangePackageParams.php) validate input for a framework outside this model. They appear only as the shapes of `Configuration`, `CreateParams`, `ChangePackageParams` and `AccountIdentifier`.
- src/LaravelServiceProvider.php is not part of this model.
- SuspendTwice: holds only when the site's `GetSite` and `Unpublish` requests are answered as the platform would (not forced through `Env.faults`). A forced reply could report the site as published again, and the code would then unpublish a second time.
- DudaProvider.AccountInfoSeesPublishStatus and DudaApi.GetInfoSeesPublishStatus: hold only when the site query is not forced, for the same reason.
- The `*H` functions with a `folded` flag, the step methods (`SuspendSteps`, `CreateSiteStep` and the like), and the ghost log snapshots are proof structure only. They split each operation where the PHP code has one function, with the same calls in the same order.

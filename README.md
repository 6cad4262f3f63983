# Support console core — a Dafny model

This project models the server-side core of the support console for the
MaximiseAI platform. The console is a Next.js application over MongoDB that
support staff use to look after customer teams. The model covers:

- **credits/add** — credit additions and refunds on a team, with an audit record in `creditlogs`;
- **teams/logs** — the paginated credit history, with the running balance rebuilt backwards from the current balance;
- **middleware** — the gate in front of every page and API route: static files, public paths, session cookie, and e-mail allow-lists on restricted prefixes;
- **team searches** — `teams/search` (smart query and relevance sort), `teams/search-advanced` (query-type detection, api-endpoint scan, name-first order), `teams/by-member` and `teams/by-api`;
- **team-apis** — the per-team view of the global API catalogue, enable/disable/visibility, and rate-limit patches;
- **the OTP store** (`findAndGenerateOTP` and `get`) and the OTP input box's sanitising;
- **sales-nav accounts** — create and update;
- **rate limits** — bulk update, single update, and followers limits.

Each MongoDB collection that a route writes is modelled as a class holding a
`seq` of documents. Each route handler is either a method whose `ensures`
ties the response and the new collection state to a pure specification
function of the old state and the request, or that function itself when the
route only reads. The lemmas then state what the route promises about that
function. Every request runs atomically over a snapshot of the collections.

Module layout:

- `Common` — loosely typed JSON values (`JsValue`), JavaScript truthiness, ASCII string helpers, number parsing and printing.
- `Models` — team documents, the ordered `api_limits` map, and the collection classes.
- `RegexEscape` — `escapeRegex`, which four routes share, and what the escaped case-insensitive pattern matches.
- `StableSort` — the stable sort that `Array.prototype.sort` is.
- One module per route file: `CreditsAdd`, `TeamLogs`, `Middleware`, `TeamSearch`, `SearchAdvanced`, `ByMember`, `ByApi`, `TeamApis`, `Otp`, `OtpInput`, `SalesNav`, `RateLimits`.

## Model

| member | source | states |
|---|---|---|
| Common.AutoIsDecimal | app/api/teams/logs/route.ts:12-13 | Without a "0x" prefix, `parseInt(s)` reads s as `parseInt(s, 10)` does |
| Common.AutoIsHex | app/api/teams/by-api/route.ts:50-53 | With a "0x"/"0X" prefix, `parseInt(s)` reads the hexadecimal digits, signed, where the decimal reading is 0 |
| Common.HexExample | app/api/teams/by-api/route.ts:50 | `parseInt("0x64")` is 100 and `parseInt("0x64", 10)` is 0 |
| Common.FilterPosition | app/api/teams/search-advanced/route.ts:88-102 | A passing element sits in the filtered list right after the passing elements before it |
| CreditsAdd.StatusCode | app/api/credits/add/route.ts:14-54 | The HTTP status is 200 exactly when the request succeeded |
| CreditsAdd.Apply | app/api/credits/add/route.ts:52-102 | The previous and new available balances are base minus used, before and after the change |
| CreditsAdd.AdditionEffect | app/api/credits/add/route.ts:82-89 | An addition raises base by the amount, leaves used alone, and raises the available balance by exactly the amount |
| CreditsAdd.RefundClamp | app/api/credits/add/route.ts:59-68 | A refund leaves base alone and sets used to max(0, used - amount), which is never negative |
| CreditsAdd.RefundEffect | app/api/credits/add/route.ts:59-62 | A refund raises the available balance by min(amount, used), which lies between 0 and the amount |
| CreditsAdd.OtherActionsAreAdditions | app/api/credits/add/route.ts:12-82 | Any action other than "refund", including a missing one, is treated as an addition |
| CreditsAdd.AmountOf | app/api/credits/add/route.ts:21 | A positive JSON number is read as that integer, Infinity as the infinite amount |
| CreditsAdd.Counters | app/api/credits/add/route.ts:52-102 | With a finite amount the counters are Apply's; an infinite refund sets credits_used to 0; before and after are base minus used |
| CreditsAdd.InfiniteRefundClears | app/api/credits/add/route.ts:59-62 | A refund of Infinity sets credits_used to 0, the same as any finite refund of at least the consumption |
| CreditsAdd.NoteOr | app/api/credits/add/route.ts:72-93 | `note || default`: a given note is kept, an empty one replaced by the default |
| CreditsAdd.Handle | app/api/credits/add/route.ts:9-175 | A failed request changes no team and writes no audit record; a success needs a positive (possibly infinite) amount and a 24-hex team id, keeps the team count, and appends the team's audit record exactly when the audit store is up and the credit-log schema accepts it, and nothing otherwise |
| CreditsAdd.AuditRecordFields | app/api/credits/add/route.ts:125-147 | The audit record carries the operator cookie or `unknown@support.local`, the team's id and name, the action, the requested amount, the available credit before and after the update, the note or the per-action default reason, and payment status `not_applicable` |
| CreditsAdd.AuditAppended | app/api/credits/add/route.ts:121-151 | With the audit store up, a listed action type and a named team, a success appends exactly that team's audit record |
| CreditsAdd.RejectsBadAmount | app/api/credits/add/route.ts:14-26 | An amount that is missing, not a number or not positive gives 400 and changes nothing (Infinity is a positive number and passes) |
| CreditsAdd.UnknownTeam | app/api/credits/add/route.ts:42-49 | An unknown team id gives 404 and changes nothing |
| CreditsAdd.SuccessShape | app/api/credits/add/route.ts:59-165 | On success only the addressed team changes: besides its one counter, updatedAt is stamped with now and exactly one credit_history entry is pushed, carrying the requested amount, the action, now and the available credit before and after; every other field is unchanged; the reported and audited balances are the same |
| CreditsAdd.AdditionRequest | app/api/credits/add/route.ts:82-102 | A valid addition stores the team with base_credit raised by the amount, updatedAt = now and one pushed addition entry (amount, note or "Credits added by support", previous/new base credit, previous/new available credit, action, now), every other field unchanged; available credit rises by exactly the amount |
| CreditsAdd.RefundRequest | app/api/credits/add/route.ts:59-81 | A valid refund stores the team with credits_used = max(0, used - amount) (0 for Infinity), updatedAt = now and one pushed refund entry (amount, note or "Credits refunded by support", previous/new credits used, previous/new available credit, "refund", now), every other field unchanged |
| CreditsAdd.ClampedRefundAudit | app/api/credits/add/route.ts:136-147 | The audit record of a clamped refund stores the requested amount 700 while the balance moves only from 600 to 1000 |
| CreditsAdd.AuditFailureKeepsSuccess | app/api/credits/add/route.ts:121-151 | An audit record the credit-log schema refuses is dropped and the request still succeeds |
| CreditsAdd.UnknownActionNotAudited | app/api/credits/add/route.ts:136-151 | An action type outside the credit-log enum leaves the team updated but writes no audit record |
| CreditsAdd.Post | app/api/credits/add/route.ts:9-175 | The handler's response and new collections are those of Handle on the old state; the credit log only grows by appending |
| TeamLogs.Deltas | app/api/teams/logs/route.ts:71-84 | There is one delta per log, and it is that log's credits_used |
| TeamLogs.DeltaSumIsSum | app/api/teams/logs/route.ts:71-84 | The total consumption of a run of logs is the sum of their per-log deltas |
| TeamLogs.DeltaSumSplit | app/api/teams/logs/route.ts:58-81 | The credits consumed by a concatenation of logs are the sum of both parts |
| TeamLogs.DeltaSumStep | app/api/teams/logs/route.ts:83-91 | Extending the newer prefix by one log adds exactly that log's consumption |
| TeamLogs.Annotate | app/api/teams/logs/route.ts:81-93 | The reconstruction gives one annotated entry per log |
| TeamLogs.AnnotateFirst | app/api/teams/logs/route.ts:53-81 | The newest entry's balance after equals the starting balance |
| TeamLogs.AnnotateDelta | app/api/teams/logs/route.ts:83-89 | Each entry keeps its log, and its balance before minus its balance after is exactly what it consumed |
| TeamLogs.AnnotateChain | app/api/teams/logs/route.ts:90-92 | An older entry's balance after equals the next newer entry's balance before |
| TeamLogs.AnnotateSlice | app/api/teams/logs/route.ts:58-81 | Rebuilding a window from the current balance plus the newer entries' consumption gives that window of the whole reconstruction |
| TeamLogs.PrefixOfWindow | app/api/teams/logs/route.ts:58-81 | What the entries before a window consume, plus the window's first k entries, is what the first lo+k entries consume |
| TeamLogs.PageOf | app/api/teams/logs/route.ts:43-83 | A page holds at most `limit` entries |
| TeamLogs.PageIsSlice | app/api/teams/logs/route.ts:43-46 | Page p is the slice [(p-1)*limit, p*limit) of the whole listing's reconstruction |
| TeamLogs.PagesJoin | app/api/teams/logs/route.ts:58-93 | Pages 1..n read one after another equal the prefix of the whole reconstruction, so pages agree at their borders |
| TeamLogs.CeilDiv | app/api/teams/logs/route.ts:101 | totalPages is the least number of pages of `limit` entries that holds the total |
| TeamLogs.Walk | app/api/teams/logs/route.ts:81-93 | The loop that walks the page returns exactly the reconstruction from its starting balance |
| TeamLogs.FindByIdOrUid | app/api/teams/logs/route.ts:23-25 | The team found has the parameter as its id or uid; none means no team has either |
| TeamLogs.FindsByUid | app/api/teams/logs/route.ts:23-25 | The lookup the `$or` intends: a team is found by its uid unless an earlier team carries that key |
| TeamLogs.UidLookupRefused | app/api/teams/logs/route.ts:23-25 | A team's 36-character uid is not an ObjectId, so the cast throws, although the `$or` would find the team by it |
| TeamLogs.LogsOf | app/api/teams/logs/route.ts:35-42 | The listing holds exactly the stored logs that belong to the team |
| TeamLogs.Get | app/api/teams/logs/route.ts:6-119 | A missing team id gives 400; a key that is not an ObjectId gives 500; an unknown team 404. A page is answered exactly when page and limit parse and the store accepts them (positive limit and page at least 1, or limit at most 0 and page at most 1). It echoes the parsed page and limit and reports the total, the available credits and ceil(total/limit). With a positive limit the entries are page `page` of the reconstruction from the available credits. With a zero or negative limit they are the batch `skip`/`limit` select, walked from the available credits |
| TeamLogs.BuildPage | app/api/teams/logs/route.ts:44-93 | With a positive limit the page equals the page specification and the slice of the whole reconstruction |
| TeamLogs.TotalPages | app/api/teams/logs/route.ts:101 | `Math.ceil(total / limit)`: the least page count for a positive limit, unbounded for 0, the ceiling of a negative quotient for a negative limit |
| TeamLogs.NegativeLimitFirstPage | app/api/teams/logs/route.ts:40-46 | On page 1 a limit of -m returns the newest m logs (all, if fewer), annotated as in the unlimited listing |
| Middleware.CheckRestricted | middleware.ts:60-76 | The restricted check refuses exactly when some restricted prefix matches and the e-mail is not on its list; it answers 403 on /api/ paths and redirects to access-denied elsewhere |
| Middleware.SkippedPasses | middleware.ts:24-31 | Static-file paths and `/_next/` paths pass whatever the session and e-mail |
| Middleware.NoSessionGate | middleware.ts:41-49 | Without a session a path passes iff it is public; every other path is redirected to /login |
| Middleware.PublicPathBoundary | middleware.ts:37 | `/login/x` is public but `/loginx` is not, and without a session `/loginx` is redirected to /login |
| Middleware.SignedInLogin | middleware.ts:54-57 | A signed-in visit to /login is redirected home |
| Middleware.SignedInGate | middleware.ts:59-78 | With a session, a request is refused iff a matching restricted prefix denies the lower-cased e-mail, with 403 exactly on /api/ paths |
| Middleware.SignedInDecide | middleware.ts:52-78 | With a session and off the login page, the decision is the restricted-prefix check on the lower-cased e-mail cookie |
| Middleware.EmailCaseInsensitive | middleware.ts:34-62 | The allow-list decision does not depend on the case of the e-mail cookie |
| Middleware.AllowListExamples | middleware.ts:12-74 | An allow-listed e-mail in any letter case passes `/users`, another e-mail is redirected to access-denied, and `/api/users` with no e-mail cookie gets 403 |
| Middleware.PlainPrefixRestriction | middleware.ts:61 | `/usersX` is restricted like `/users`, because the prefix test has no segment boundary |
| Middleware.StaticExtensionPrecedes | middleware.ts:18-26 | `/api/users/a.js` passes without a session, because the static-extension test comes first |
| Middleware.NotSkipped | middleware.ts:18-31 | A path with no dot whose second character is not `_` goes through the session gate |
| RegexEscape.EscapeRegex | app/api/teams/search/route.ts:6-8 | The escaped text is unchanged when it has no regex specials, and is between |s| and 2|s| long |
| RegexEscape.EscapeIsLiteral | app/api/teams/search/route.ts:6-8 | The escaped text is a literal pattern whose unescaping gives the input back |
| RegexEscape.LiteralIsEscape | app/api/teams/search/route.ts:6-8 | Every literal pattern is the escape of its unescaping, so escaping is a bijection onto literal patterns |
| RegexEscape.CiEqualsContains | app/api/teams/by-api/route.ts:32 | An anchored case-insensitive match implies the unanchored one |
| TeamSearch.NonSpacePrefix | app/api/teams/search/route.ts:40 | The prefix is the longest leading run without whitespace |
| TeamSearch.WordsAreWords | app/api/teams/search/route.ts:40 | Every word is non-empty and contains no whitespace |
| TeamSearch.SingleWord | app/api/teams/search/route.ts:40-50 | A trimmed query without whitespace splits into exactly itself |
| TeamSearch.Pattern | app/api/teams/search/route.ts:42 | The pattern for a single word is that word, regex-escaped |
| TeamSearch.LowerAll | app/api/teams/search/route.ts:42 | Lower-casing a word list keeps its length and lower-cases each word |
| TeamSearch.OnePartIsSubstring | app/api/teams/search/route.ts:47-49 | For one word, the ".*" pattern match is case-insensitive substring |
| TeamSearch.Find | app/api/teams/search/route.ts:177-180 | At most 50 results, each a stored document that matches the filter |
| TeamSearch.SmartIdOnly | app/api/teams/search/route.ts:16-26 | A 24-hex-digit query searches by id only |
| TeamSearch.LayoutFacts | app/api/teams/search/route.ts:28-71 | The `$or` always holds the team-name clause; the e-mail, member-name and uid clauses appear exactly when their flags are set; the fields keep a fixed order |
| TeamSearch.SmartNeverMatchAll | app/api/teams/search/route.ts:36-74 | A query that is not an id gives an `$or` that always holds the team-name clause, never the match-everything filter |
| TeamSearch.SmartClauses | app/api/teams/search/route.ts:29-71 | The e-mail clause appears iff the query has "@", the member-name clause iff it has no special characters, and the uid clause iff it looks like a uid; each field appears at most once, in a fixed order |
| TeamSearch.SmartOneWord | app/api/teams/search/route.ts:46-49 | A one-word query gives the query itself as its only name part |
| TeamSearch.SmartFilterIs | app/api/teams/search/route.ts:11-78 | The smart filter for a query that is not an id is the `$or` laid out from the query's flags |
| TeamSearch.BuildSmartQuery | app/api/teams/search/route.ts:11-78 | The builder returns the smart filter and reports search type "id" exactly for a 24-hex-digit query, else "auto" |
| TeamSearch.Rank | app/api/teams/search/route.ts:84-105 | The rank puts a name-prefix match above an exact member e-mail, which is above a name-substring match |
| TeamSearch.CompareIsRankOrder | app/api/teams/search/route.ts:84-109 | The comparator is negative iff the first team has the lower rank, and zero iff the ranks are equal, so it is a consistent comparator |
| TeamSearch.RelevanceIsPreorder | app/api/teams/search/route.ts:81-110 | The relevance order is total and transitive |
| TeamSearch.SortByRelevance | app/api/teams/search/route.ts:81-110 | The sorted result is a permutation of the input, non-decreasing by rank |
| TeamSearch.RelevancePriority | app/api/teams/search/route.ts:85-105 | In the sorted list, a later name-prefix match implies an earlier one; on equal name-prefix status, a later exact e-mail implies an earlier one; on both equal, a later name substring implies an earlier one |
| TeamSearch.RelevanceStable | app/api/teams/search/route.ts:107-108 | Teams of equal rank keep their database order |
| TeamSearch.Summary | app/api/teams/search/route.ts:198-201 | A projected team's credits are base minus used, with missing numbers read as 0 |
| TeamSearch.Project | app/api/teams/search/route.ts:193-207 | Projection keeps length and order and summarises each team |
| TeamSearch.Dispatch | app/api/teams/search/route.ts:132-175 | A filter is planned iff the type is known, with "id" also needing a 24-hex-digit query |
| TeamSearch.Get | app/api/teams/search/route.ts:112-216 | An empty query, an unknown type, and an id type with an invalid id each get their 400; results are the projection of the found teams, relevance-sorted for type auto |
| TeamSearch.ResultsMatch | app/api/teams/search/route.ts:177-185 | Every result, sorted or not, is a stored team that matches the filter, and there are at most 50 |
| SearchAdvanced.DetectSearchType | app/api/teams/search-advanced/route.ts:11-34 | The trimmed query is a team id iff it is 24 hex digits, an e-mail iff it contains "@", an api endpoint iff it mentions an API keyword, and general otherwise; member- and team-name kinds are never detected |
| SearchAdvanced.DetectEmailFirst | app/api/teams/search-advanced/route.ts:23-28 | `finder@acme.io` is an e-mail search although it contains an API keyword |
| SearchAdvanced.DetectKeywordAnyCase | app/api/teams/search-advanced/route.ts:28 | `Email-Finder` is an api-endpoint search; the keyword test ignores case |
| SearchAdvanced.Summarise | app/api/teams/search-advanced/route.ts:170-174 | A limit summary keeps the api name and value, and is unlimited iff the value is -1, 999999 or Infinity |
| SearchAdvanced.SummariseAll | app/api/teams/search-advanced/route.ts:210-214 | Summarising keeps the length and order of the limits |
| SearchAdvanced.MatchingApis | app/api/teams/search-advanced/route.ts:168-174 | Each matching api's name contains the query case-insensitively, each comes from a stored limit, and every such limit is reported |
| SearchAdvanced.EnrichApiTeam | app/api/teams/search-advanced/route.ts:176-189 | An enriched team has at least one matching api, and total_apis counts all of its limits |
| SearchAdvanced.EnrichAll | app/api/teams/search-advanced/route.ts:176-189 | Enrichment keeps length and order |
| SearchAdvanced.Prefix | app/api/teams/search-advanced/route.ts:198 | slice(0, n) keeps the first min(n, length) elements |
| SearchAdvanced.ApiEndpointResults | app/api/teams/search-advanced/route.ts:150-198 | An endpoint search returns at most 50 teams; the count is the number of teams among the first 100 with a matching api key, between the number returned and 100; every team has a matching api whose name contains the query |
| SearchAdvanced.ApiEndpointComplete | app/api/teams/search-advanced/route.ts:150-198 | Every team among the first 100 with a matching api key is counted, and is returned, enriched, at its store-order place whenever fewer than 50 matching teams precede it |
| SearchAdvanced.ApiEndpointScansFirst100 | app/api/teams/search-advanced/route.ts:150-153 | Teams beyond the first 100 never appear, even when they match |
| SearchAdvanced.EnrichFound | app/api/teams/search-advanced/route.ts:88-229 | A found team (one with `api_limits`) keeps id, name and members; its api summary has exactly total_apis entries, one per stored limit in order; all_api_limits is given only when details are asked for |
| SearchAdvanced.Matched | app/api/teams/search-advanced/route.ts:88-102 | The pipeline passes at most 50 teams |
| SearchAdvanced.EnrichFoundAll | app/api/teams/search-advanced/route.ts:207-229 | Enrichment of found teams keeps length and order |
| SearchAdvanced.AsWrittenCompareInconsistent | app/api/teams/search-advanced/route.ts:233-243 | The comparator as written says -1 for both orders of two teams named "Acme" and "ACME" (query "acme"), so it is not a consistent order |
| SearchAdvanced.AsWrittenAgreesWithTiers | app/api/teams/search-advanced/route.ts:233-243 | For two teams in different tiers, the comparator as written orders them by tier and is antisymmetric |
| SearchAdvanced.TierIsPreorder | app/api/teams/search-advanced/route.ts:233-243 | The tier order is total and transitive |
| SearchAdvanced.SortByName | app/api/teams/search-advanced/route.ts:233-243 | The name sort is a permutation of its input, non-decreasing by tier (exact name, then prefix, then the rest) |
| SearchAdvanced.SortByNameOrder | app/api/teams/search-advanced/route.ts:233-243 | Exact name matches come before all other teams, and prefix matches before teams that match neither way |
| SearchAdvanced.Tail | app/api/teams/search-advanced/route.ts:263-280 | The text after the count starts with a space |
| SearchAdvanced.DescriptionQuotesQuery | app/api/teams/search-advanced/route.ts:263-280 | In each worded description the query appears verbatim right after the opening quote |
| SearchAdvanced.SpaceAfter | app/api/teams/search-advanced/route.ts:263-280 | A space follows the printed count |
| SearchAdvanced.DigitsBeforeSpace | app/api/teams/search-advanced/route.ts:263-280 | Two digit strings, each followed by a space and some text, are equal when the whole texts are equal |
| SearchAdvanced.NatToStringInjective | app/api/teams/search-advanced/route.ts:263-280 | Different counts print differently |
| SearchAdvanced.FoundCountInjective | app/api/teams/search-advanced/route.ts:263-280 | "Found " followed by a count and a tail starting with a space determines the count's text |
| SearchAdvanced.DescriptionDeterminesCount | app/api/teams/search-advanced/route.ts:263-280 | For any type other than team_id, equal descriptions of the same query imply equal counts |
| SearchAdvanced.Get | app/api/teams/search-advanced/route.ts:125-261 | An empty query gives 400; endpoint results come exactly from a query detected as an api endpoint; any other query fails with 500 exactly when one of the first 50 matched teams lacks `api_limits`, and otherwise has the detected kind, a count equal to the number of teams and of matched teams, and the description for that kind, query and count |
| SearchAdvanced.ResultsMatchStage | app/api/teams/search-advanced/route.ts:37-123 | Each returned team is the enrichment of a stored team with `api_limits` that the kind's match stage accepts |
| SearchAdvanced.ResultsAreComplete | app/api/teams/search-advanced/route.ts:88-123 | Each of the first 50 matching teams in store order is listed, and the result holds min(50, number of matches) teams |
| SearchAdvanced.PipelineTeams | app/api/teams/search-advanced/route.ts:203-243 | A pipeline result is the relevance sort of the enriched matched teams |
| SearchAdvanced.MissingLimitsFail | app/api/teams/search-advanced/route.ts:88-98 | A team without `api_limits` among the first 50 matches makes the whole search fail |
| ByMember.StatusOf | app/api/teams/by-member/route.ts:59-61 | The status is disabled exactly for 0, low for other values below 100, normal for 100 to 999, and high for 1000 or more or unbounded |
| ByMember.Configure | app/api/teams/by-member/route.ts:53-62 | A configuration keeps the api name; a non-number limit reads as 0 and is disabled; the configuration is unlimited iff the limit is -1 or 999999 |
| ByMember.Configs | app/api/teams/by-member/route.ts:52-64 | One configuration per limit, in order; none when the team has no limits |
| ByMember.GroupPartition | app/api/teams/by-member/route.ts:67-71 | The disabled, low, normal and high groups together are as large as the configurations, and each configuration is in its status group |
| ByMember.GroupsHaveTheirStatus | app/api/teams/by-member/route.ts:67-71 | Each status group holds only configurations with that status |
| ByMember.UnlimitedOverlaps | app/api/teams/by-member/route.ts:57-72 | The unlimited list holds exactly the -1 and 999999 configurations, which the status groups also count: -1 as low and 999999 as high |
| ByMember.ByName | app/api/teams/by-member/route.ts:89 | The configurations sorted by name are a permutation of the input in name order |
| ByMember.OrNull | app/api/teams/by-member/route.ts:92-93 | A falsy value is reported as null and a truthy one unchanged |
| ByMember.Enrich | app/api/teams/by-member/route.ts:45-95 | totalApis counts all of the team's configurations; the matching members are exactly the team's members whose e-mail contains the query |
| ByMember.EnrichAll | app/api/teams/by-member/route.ts:45-95 | Enrichment keeps length and order |
| ByMember.NamesOf | app/api/teams/by-member/route.ts:99-105 | Collecting names keeps length and order |
| ByMember.AllNamesLength | app/api/teams/by-member/route.ts:99-105 | The flattened list of api names is as long as the sum of the teams' totalApis |
| ByMember.DistinctAtMostLength | app/api/teams/by-member/route.ts:102-106 | A list has no more distinct elements than entries |
| ByMember.RoundedAverage | app/api/teams/by-member/route.ts:116-118 | The average is total divided by count, rounded to the nearest integer with halves up |
| ByMember.Summarise | app/api/teams/by-member/route.ts:98-119 | totalTeams counts the teams, and unique endpoints never exceed total configurations |
| ByMember.Listed | app/api/teams/by-member/route.ts:28-32 | Every team with a member whose e-mail contains the query is listed |
| ByMember.Get | app/api/teams/by-member/route.ts:9-121 | An empty e-mail gives 400; 404 iff no team has a member matching the trimmed e-mail; a found response has at least one team, counts them, and has no more unique endpoints than configurations |
| ByMember.FoundTeamsMatch | app/api/teams/by-member/route.ts:47-49 | Every returned team has at least one matching member |
| ByMember.FoundTeamsComplete | app/api/teams/by-member/route.ts:28-32 | Every team with a matching member is returned, enriched |
| ByMember.BlankEmailMatchesAll | app/api/teams/by-member/route.ts:25-32 | A whitespace-only e-mail trims to empty, so it matches every team that has a member |
| ByApi.BoundOf | app/api/teams/by-api/route.ts:49-55 | An absent bound is no bound, and a given one is its radix-less parseInt value, hexadecimal after "0x" (none when unparsable) |
| ByApi.Describe | app/api/teams/by-api/route.ts:59-64 | A matching api keeps its name and limit; it is unlimited iff the limit is -1 or 999999, and needs attention iff the limit is a number below 100 |
| ByApi.DescribeAll | app/api/teams/by-api/route.ts:59-64 | Describing keeps length and order |
| ByApi.MatchingApis | app/api/teams/by-api/route.ts:41-64 | The matching apis are exactly the descriptions of the limits that match the name and lie within the bounds |
| ByApi.TeamEntry | app/api/teams/by-api/route.ts:35-80 | A team yields an entry iff one of its limits is selected; the entry has at least one matching api and the team's total api count |
| ByApi.Collect | app/api/teams/by-api/route.ts:34-81 | The collected entries are exactly the entries of the teams that yield one |
| ByApi.MinLimit | app/api/teams/by-api/route.ts:85-90 | The sort key is the least limit among the matching apis, where a non-number is unbounded; it is unbounded when there are none |
| ByApi.TeamLePreorder | app/api/teams/by-api/route.ts:84-92 | The sort order on entries is total and transitive |
| ByApi.ByMinLimit | app/api/teams/by-api/route.ts:84-92 | The sorted entries are a permutation of the input, non-decreasing by least limit |
| ByApi.Round | app/api/teams/by-api/route.ts:104-111 | `Math.round`: the result is within one half of x, halves rounding up |
| ByApi.AverageWithin | app/api/teams/by-api/route.ts:103-112 | When every listed limit is a number in [lo, hi], the average limit (mean of the teams' mean limits, rounded) is too |
| ByApi.MeanSumWithin | app/api/teams/by-api/route.ts:105-110 | The sum of the per-team means of T teams lies between T*lo and T*hi |
| ByApi.TeamMeanWithin | app/api/teams/by-api/route.ts:106-108 | One team's mean limit lies between the least and greatest bound of its limits |
| ByApi.StatsBounds | app/api/teams/by-api/route.ts:95-102 | Teams never outnumber api instances, and teams needing attention never outnumber teams |
| ByApi.Get | app/api/teams/by-api/route.ts:9-134 | A missing api name gives 400; exact matching is on iff the flag is "true" |
| ByApi.ResultsAreUnsortedPermuted | app/api/teams/by-api/route.ts:34-92 | The response lists a permutation of the collected entries |
| ByApi.ResultsAreSelected | app/api/teams/by-api/route.ts:34-81 | Every returned team is the entry of a stored team with a limit matching the name within the bounds |
| ByApi.ResultsAreComplete | app/api/teams/by-api/route.ts:34-81 | Every stored team with such a limit is returned |
| ByApi.ResultsOrderAndStats | app/api/teams/by-api/route.ts:84-102 | The teams are ordered by least limit, and the statistics stay within bounds |
| ByApi.ExactIsNarrower | app/api/teams/by-api/route.ts:32 | An exact key match is also a substring match, so exact searches return fewer teams |
| ByApi.BoundsExamples | app/api/teams/by-api/route.ts:49-55 | A string limit reads as 0 and fails a minimum of 1; an Infinity limit passes every minimum and fails every maximum |
| TeamApis.View | app/api/team-apis/route.ts:40-69 | An api is shown on the dashboard iff the team has a record with enabled and dashboard flags not false; it is enabled iff the record exists and is not disabled |
| TeamApis.RateLimitLayers | app/api/team-apis/route.ts:59 | The team's truthy rate limit wins, then the catalogue's, then 100; the result is always truthy |
| TeamApis.CreditsPerCallLayers | app/api/team-apis/route.ts:60 | A team value of 0 is kept; a missing team value falls back to the catalogue's 0, and to 1 when both are missing |
| TeamApis.GlobalFlagsIgnored | app/api/team-apis/route.ts:44-52 | The global active and dashboard flags do not affect what the team sees |
| TeamApis.RecordOf | app/api/team-apis/route.ts:41 | The team's record for an api is one of its valid records with that api id, or none exists |
| TeamApis.Get | app/api/team-apis/route.ts:7-77 | A missing team id gives 400; a team id that is not an ObjectId gives 500; otherwise there is one view per catalogue entry, in catalogue order |
| TeamApis.WillShowExactly | app/api/team-apis/route.ts:36-52 | An api shows iff the team's valid record for it is enabled and dashboard-visible; that record is a stored row of the team for the api |
| TeamApis.FindRecord | app/api/team-apis/route.ts:104-107 | The record found is the first with the team id and endpoint; none means no such record |
| TeamApis.HandlePost | app/api/team-apis/route.ts:84-207 | Missing team id, api id or endpoint gives 400; no flag gives "nothing to change"; enable/disable and visibility answers match the flag sent; any other answer leaves the records unchanged; at most one record is added |
| TeamApis.EnableEffect | app/api/team-apis/route.ts:102-143 | Enabling leaves the team-and-endpoint record enabled, with the given rate limit and credits per call or the defaults 100 and 1, and updatedAt stamped; an existing record keeps every other field (api, dashboardEnabled, createdAt, ...); other records are unchanged; a new record gets the new id, team, endpoint, api id, the given dashboard flag or false, cycle "min", no calls, no last call and createdAt now |
| TeamApis.DisableEffect | app/api/team-apis/route.ts:144-162 | Disabling answers success; it sets only enabled false and updatedAt on the matching record, keeping its other fields, or changes nothing when none matches |
| TeamApis.VisibilityRules | app/api/team-apis/route.ts:100-191 | When enabled is given no record's dashboard flag changes; a visibility change rewrites only the matching record's flag and updatedAt; 404 iff no record matches |
| TeamApis.HiddenNotShown | app/api/team-apis/route.ts:49-177 | After hiding an api, the view of that record does not show it |
| TeamApis.Patched | app/api/team-apis/route.ts:249-269 | A patch replaces only the fields that were sent, stamps updatedAt and leaves the rest of the record as it was |
| TeamApis.TeamApiTable.constructor | app/api/team-apis/route.ts:84 | The table starts with the given records |
| TeamApis.TeamApiTable.Post | app/api/team-apis/route.ts:84-207 | The handler's response and new records are those of HandlePost on the old records |
| TeamApis.PatchRefusal | app/api/team-apis/route.ts:217-276 | Each refusal comes exactly under its condition, in the route's order: missing team id or endpoint, no setting, a bad rate limit, a bad credits per call (400 each), a team id that is not an ObjectId (500), no record for the team and endpoint (404); no refusal exactly when all checks pass and the record exists |
| TeamApis.TeamApiTable.Patch | app/api/team-apis/route.ts:210-295 | A refused request answers PatchRefusal's answer and changes nothing; otherwise only the first record for the team and endpoint is patched, and the messages are "Rate limit set to N/min" then "Credits per call set to N", one per field sent (the response joins them with ". ") |
| Otp.Normalise | lib/models/otp.model.ts:49-68 | A normalised e-mail has no surrounding whitespace and no capital letters |
| Otp.TrimKeepsLower | lib/models/otp.model.ts:25-26 | Trimming keeps a lower-case text lower-case |
| Otp.NormaliseIdempotent | lib/models/otp.model.ts:49-68 | Normalising twice is normalising once |
| Otp.CodeText | lib/models/otp.model.ts:42-44 | A code drawn from [100000, 999999) prints as six digits, has no leading zero, and reads back as the drawn number |
| Otp.NatToStringLength | lib/models/otp.model.ts:42-44 | A number in [10^(d-1), 10^d) prints with d digits |
| Otp.Power10 | lib/models/otp.model.ts:42-44 | Powers of ten are at least 1 |
| Otp.SixDigits | lib/models/otp.model.ts:42-44 | Every six-digit number prints as six digits |
| Otp.Without | lib/models/otp.model.ts:52 | deleteMany keeps exactly the records of other e-mails |
| Otp.CountWithout | lib/models/otp.model.ts:52 | After deleteMany an e-mail has no records and every other keeps its count |
| Otp.CountAppend | lib/models/otp.model.ts:56-60 | Appending one record adds one to that e-mail's count only |
| Otp.CountsAfterGenerate | lib/models/otp.model.ts:52-60 | Deleting an e-mail's codes and appending at most one new code for it leaves that e-mail with exactly the new codes and every other e-mail's count unchanged |
| Otp.Find | lib/models/otp.model.ts:70-73 | The record found has the e-mail and code; none means no record has both |
| Otp.RemoveAt | lib/models/otp.model.ts:81 | Removing one record leaves one fewer, and the removed record is the only difference |
| Otp.OtpStore.constructor | lib/models/otp.model.ts:19-39 | The store starts empty |
| Otp.OtpStore.FindAndGenerate | lib/models/otp.model.ts:47-63 | Old codes for the normalised e-mail are deleted and one fresh code valid for five minutes is stored when the schema accepts the e-mail; other e-mails' records are untouched |
| Otp.OtpStore.Get | lib/models/otp.model.ts:66-86 | An unknown code gives null; an expired one gives null and is deleted; a live one is returned and nothing changes |
| Otp.IssuedCodeLifetime | lib/models/otp.model.ts:56-80 | After a code is issued, any letter-case variant of the e-mail finds it, and it is accepted at time t iff t is at most 300000 ms after issue |
| Otp.FindLast | lib/models/otp.model.ts:70-73 | A record appended after other e-mails' records is found at the end |
| Otp.WrongCodeFindsNothing | lib/models/otp.model.ts:70-77 | When no record of the e-mail has the code, the lookup finds nothing |
| OtpInput.Digits | app/components/auth/otp-input.tsx:15-23 | There are `length` cells: each typed character in its own cell, then empty cells |
| OtpInput.Sanitise | app/components/auth/otp-input.tsx:36 | The sanitised text holds only capital letters and digits, and is no longer than the input |
| OtpInput.SanitiseKeepsLettersAndDigits | app/components/auth/otp-input.tsx:36 | Sanitising is upper-casing the input's letters and digits, in order |
| OtpInput.ToUpperConcat | app/components/auth/otp-input.tsx:36 | Upper-casing distributes over concatenation |
| OtpInput.SanitiseKeptString | app/components/auth/otp-input.tsx:36 | A text of upper-case letters and digits is unchanged by sanitising |
| OtpInput.SanitiseIdempotent | app/components/auth/otp-input.tsx:36 | Sanitising twice is sanitising once |
| OtpInput.HandleChange | app/components/auth/otp-input.tsx:35-40 | A change is emitted iff the sanitised text fits in `length`, and the emitted value is that text |
| OtpInput.HandleKeyDown | app/components/auth/otp-input.tsx:29-33 | Backspace on an empty value emits the empty value; nothing else is emitted |
| OtpInput.EmittedValueFits | app/components/auth/otp-input.tsx:23-37 | An emitted value fills its cells one character each, and every cell holds a capital letter, a digit or nothing |
| OtpInput.LowerCaseIsUpperCased | app/components/auth/otp-input.tsx:36 | Typing "ab-12" emits "AB12" |
| RateLimits.StatusCode | app/api/rate-limits/bulk-update/route.ts:11-63 | The status is 200 exactly for an update and 404 exactly for an unknown team |
| RateLimits.LimitsOf | app/api/rate-limits/bulk-update/route.ts:48-55 | A team with no api_limits has an empty list |
| RateLimits.SetAll | app/api/rate-limits/bulk-update/route.ts:53-55 | Setting a list of keys keeps the keys unique |
| RateLimits.SetAllListed | app/api/rate-limits/bulk-update/route.ts:53-55 | After the bulk set, each listed key holds the last value given for it |
| RateLimits.SetAllOthers | app/api/rate-limits/bulk-update/route.ts:53-55 | Keys not listed keep their values |
| RateLimits.DuplicateKeyHarmless | app/api/rate-limits/bulk-update/route.ts:53-55 | A key given twice ends with the later value |
| RateLimits.Bulk | app/api/rate-limits/bulk-update/route.ts:5-92 | A failure changes nothing; an update keeps the team count and well-formed limit maps |
| RateLimits.BulkRejectsBadBody | app/api/rate-limits/bulk-update/route.ts:11-23 | A missing or empty api list, or a limit that is not a non-negative number, gives 400 and changes nothing |
| RateLimits.BulkUnknownTeam | app/api/rate-limits/bulk-update/route.ts:39-46 | An unknown team gives 404 |
| RateLimits.BulkEffect | app/api/rate-limits/bulk-update/route.ts:48-63 | A success changes only the addressed team, and only the listed keys of its limits |
| RateLimits.BulkUpdate | app/api/rate-limits/bulk-update/route.ts:48-63 | The loop over the entries yields the bulk specification's result |
| RateLimits.One | app/api/rate-limits/update/route.ts:5-85 | A failure changes nothing; an update keeps the team count |
| RateLimits.OneRejectsBadBody | app/api/rate-limits/update/route.ts:10-22 | A missing team id or api name, or a limit that is not a non-negative number, gives 400 and changes nothing; a given but bad limit gets the bad-limit answer |
| RateLimits.OneUnknownTeam | app/api/rate-limits/update/route.ts:38-45 | An unknown team gives 404 |
| RateLimits.OneEffect | app/api/rate-limits/update/route.ts:47-57 | A success sets one key of one team and changes nothing else |
| RateLimits.OneIsBulkOfOne | app/api/rate-limits/update/route.ts:47-57 | A single update has the effect of a bulk update of one entry |
| RateLimits.Update | app/api/rate-limits/update/route.ts:47-57 | The handler's result and collection equal the single-update specification |
| Models.SetLimit | app/api/rate-limits/update/route.ts:48-57 | Setting `api_limits.k` keeps keys unique, makes k map to the value, keeps the key order when k existed and appends it otherwise |
| Models.SetLimitOthers | app/api/rate-limits/update/route.ts:48-57 | Setting one key leaves every other key's value alone |
| RateLimits.FollowersParts | app/api/rate-limits/update-followers-limits/route.ts:94-100 | There is one message part per limit that is not null |
| RateLimits.Followers | app/api/rate-limits/update-followers-limits/route.ts:5-119 | A failure changes nothing; an update keeps the team count |
| RateLimits.FollowersBothNull | app/api/rate-limits/update-followers-limits/route.ts:18-23 | Two null limits give the no-limit 400 and change nothing |
| RateLimits.FollowersOmittedRejected | app/api/rate-limits/update-followers-limits/route.ts:25-37 | An omitted per-request limit gives 400 and changes nothing |
| RateLimits.FollowersUnknownTeam | app/api/rate-limits/update-followers-limits/route.ts:53-60 | An unknown team gives 404 |
| RateLimits.FollowersEffect | app/api/rate-limits/update-followers-limits/route.ts:63-81 | A success changes only the addressed team: each non-null limit is set, a null one keeps the stored value, and updated_at is stamped |
| RateLimits.JoinTwo | app/api/rate-limits/update-followers-limits/route.ts:94-104 | Two parts are joined with " and " |
| RateLimits.FollowersMessageOrder | app/api/rate-limits/update-followers-limits/route.ts:94-104 | With both limits given, the message names the daily limit first and the per-request limit second, joined by " and " |
| RateLimits.UpdateFollowers | app/api/rate-limits/update-followers-limits/route.ts:62-81 | The handler's result and collection equal the followers specification |
| SalesNav.IntOrZero | app/api/sales-nav-accounts/create/route.ts:87-94 | A falsy value is stored as 0 and a number as itself |
| SalesNav.FindIndex | app/api/sales-nav-accounts/update/route.ts:38 | The account found has the index; none means no account has it |
| SalesNav.RemoveSpaces | app/api/sales-nav-accounts/create/route.ts:84 | The result has no spaces and is no longer than the input |
| SalesNav.MaxIndex | app/api/sales-nav-accounts/create/route.ts:53-58 | The result is the greatest stored index |
| SalesNav.NextIndex | app/api/sales-nav-accounts/create/route.ts:53-58 | The new index is 0 for no accounts, else one above the greatest stored index |
| SalesNav.Create | app/api/sales-nav-accounts/create/route.ts:5-143 | A refusal changes nothing; a creation appends exactly one account |
| SalesNav.CreateRejectsBadBody | app/api/sales-nav-accounts/create/route.ts:24-38 | A missing name or e-mail, or a malformed e-mail, gives 400 and changes nothing |
| SalesNav.EmailFormatExamples | app/api/sales-nav-accounts/create/route.ts:32 | `ops@acme.io` passes the format check; addresses without a dot after "@", with two "@", or with a space fail it |
| SalesNav.CreateDefaults | app/api/sales-nav-accounts/create/route.ts:77-118 | A new account gets the next index, the trimmed name, the lower-cased e-mail key, the inactive/available/new status, zero counters, a daily followers limit of 20000, and an encrypted password iff one was given |
| SalesNav.DefaultCookiePath | app/api/sales-nav-accounts/create/route.ts:84 | Without a given path, the cookie path is built from the account name with spaces removed, and it holds no whitespace |
| SalesNav.CookiePathHasNoSpace | app/api/sales-nav-accounts/create/route.ts:84 | The cookie path built from a name without whitespace has no whitespace |
| SalesNav.CaseVariantDuplicate | app/api/sales-nav-accounts/create/route.ts:44-80 | With `ops@acme.io` stored, creating `OPS@acme.io` succeeds and stores a second account with the same e-mail key |
| SalesNav.CapitalisedAddress | app/api/sales-nav-accounts/create/route.ts:44-80 | `OPS@acme.io` passes the format check, and its key is `ops@acme.io` |
| SalesNav.CreateAccount | app/api/sales-nav-accounts/create/route.ts:40-120 | The handler's response and collection are those of Create |
| SalesNav.TrimmedOr | app/api/sales-nav-accounts/update/route.ts:81-84 | A given non-blank value is trimmed; a missing or blank one falls back to the stored value |
| SalesNav.MergeProxy | app/api/sales-nav-accounts/update/route.ts:79-86 | Proxy fields are taken from the request, and the port keeps the stored one (or 0) when none is given |
| SalesNav.CountOrZero | app/api/sales-nav-accounts/update/route.ts:73 | A number is kept; anything that is neither a number nor a string reads as 0 |
| SalesNav.Update | app/api/sales-nav-accounts/update/route.ts:5-127 | A refusal changes nothing; an update keeps the account count |
| SalesNav.UpdateRejectsIndex | app/api/sales-nav-accounts/update/route.ts:27-44 | An index that is not a number gives 400 and an unknown index gives 404; nothing changes |
| SalesNav.UpdateRejectsTakenEmail | app/api/sales-nav-accounts/update/route.ts:47-58 | An e-mail whose key belongs to another account gives 400 and nothing changes |
| SalesNav.UpdateOnlyGivenFields | app/api/sales-nav-accounts/update/route.ts:61-98 | Only the addressed account changes. Each string field is the trimmed given value or, when absent, the stored one. The proxy, connection count, active flag and password follow the same rule. `updated_at` is now. All other fields are unchanged: the index, status, counters, cooldown, error fields, `permanently_disabled` and creation data |
| SalesNav.UpdatedFrame | app/api/sales-nav-accounts/update/route.ts:61-98 | The `$set` touches only the request's fields and `updated_at` |
| SalesNav.UpdatedStrings | app/api/sales-nav-accounts/update/route.ts:61-70 | Each string field of the `$set` is the normalised given value, or the stored one when absent |
| SalesNav.PermanentlyDisabledIgnored | app/api/sales-nav-accounts/update/route.ts:8-24 | The permanently-disabled field in the body has no effect |
| SalesNav.ProxyKeepsStored | app/api/sales-nav-accounts/update/route.ts:81-82 | A blank host and a falsy port keep the stored host and port |
| SalesNav.UpdateAccount | app/api/sales-nav-accounts/update/route.ts:60-103 | The handler's response and collection are those of Update |

## Left out

- MongoDB plumbing is not modelled: connections, driver errors and the 500 responses they cause. A request acts atomically on a snapshot, so the `matchedCount`/`modifiedCount` 500 answers cannot occur.
- Concurrency between requests is not modelled.
- Numbers are integers, except by-api's `average_limit`, which is computed on exact rationals (`ByApi.AverageLimit`). Floating-point rounding error is not modelled. A NaN from `parseInt` is `None`. by-member's average uses integer rounding (`ByMember.RoundedAverage`).
- ByApi.ByMinLimit: the `Infinity - Infinity` comparison (two unlimited teams) is `NaN` in JavaScript; the model treats it as equal.
- In-place sorts of local arrays in by-api, by-member, search and search-advanced are modelled as a stable sort on values. These arrays are never aliased.
- ByMember.ByName: orders names by code point, not by `localeCompare`'s locale collation.
- Case mapping, trimming and `\s` are ASCII-only; Unicode case folding and Unicode whitespace are not modelled.
- An ObjectId is accepted when it is 24 hex digits (`Common.Hex24`); the driver's normalisation of hex case is not modelled.
- Non-string JSON in a string body field is not modelled. Calling `.trim()` on it throws, which gives a 500 before any write.
- A non-object `api_limits` is treated as missing, so `$set` on it is not modelled as a driver error. New keys are appended in the order the request lists them.
- The random OTP draw and the clock are parameters. `crypto.randomInt(100000, 999999)` excludes its upper bound, so codes lie in [100000, 999998].
- Password encryption in sales-nav create and update is represented by a `keyOk` parameter and a symbolic secret; the cipher is not modelled.
- Payment metadata on credit additions is not modelled.
- CreditsAdd.Handle: an addition whose amount is `Infinity` (a body such as `{"amount": 1e999}`) is excluded by `Modelled`. The route accepts it and `$inc` then stores `Infinity` in `base_credit`, but team credit fields are integers throughout this model, so that state cannot be held. An infinite refund is modelled: it sets `credits_used` to 0.
- CreditsAdd.Post, CreditsAdd.UnknownTeam, CreditsAdd.SuccessShape, CreditsAdd.AuditAppended, CreditsAdd.AuditFailureKeepsSuccess, CreditsAdd.UnknownActionNotAudited: they carry the same `Modelled` precondition as Handle, for the same reason.
- Sessions and JWT contents, sending e-mail, and the UI other than the OTP input are not part of this model. Routes that only pass a query through to the database are also not part of this model.
- TeamSearch.Get: explicit-type filters (`email`, `name`, …) use the query as given, without trimming, as the route does.
- TeamLogs.Get: a zero `limit` gives no limit (MongoDB's `limit(0)`), and totalPages is reported unbounded. With no logs at all, `Math.ceil(0 / 0)` is `NaN`; the model reports that as unbounded too, since both serialise as `null`. A non-numeric page or limit makes `skip((page - 1) * limit)` NaN, which is taken to be a store error.
- TeamSearch.InOrder: the `.*` between the words of a multi-word query is modelled as any gap. MongoDB's `.` does not match a line break, so a team name with a line break between the words matches in the model but not in the store.
- Models.SetLimit: the key is stored flat. MongoDB reads a key containing "." in the path `api_limits.<key>` as a nested sub-document, and an empty path segment is a server error. RateLimits.One, RateLimits.Bulk, RateLimits.OneEffect and RateLimits.BulkEffect inherit this.

## Findings

| source | as written | input that shows it | evidently intended | confidence | as-written member | corrected member |
|---|---|---|---|---|---|---|
| app/api/teams/search-advanced/route.ts:233-243 | The name comparator returns -1 whenever its first argument is an exact or prefix match, whatever the second argument is | teams named "Acme" and "ACME" with query "acme": compare(a, b) == compare(b, a) == -1 (the same holds for "Acme One" and "Acme Two") | exact name matches first, then prefix matches, then the rest, each tier keeping database order | medium, not executed | SearchAdvanced.AsWrittenCompareInconsistent | SearchAdvanced.SortByNameOrder |
| app/api/teams/logs/route.ts:23-25 | The team is looked up with `$or: [{_id: teamId}, {uid: teamId}]`; the schema casts `teamId` to an ObjectId for the `_id` branch, which throws for any key that is not one | a team whose uid is a 36-character UUID, called with that uid: 500 instead of the team's logs | a team is found by its id or by its uid | medium, not executed | TeamLogs.UidLookupRefused | TeamLogs.FindsByUid |

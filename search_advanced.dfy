/**
  GET /api/teams/search-advanced: classifies the trimmed query (team id,
  e-mail, api endpoint, or general text) and searches accordingly. An api
  endpoint query scans the first 100 teams for `api_limits` keys containing
  the query and reports the matching limits; every other kind runs one
  filter, summarises each team's limits, and puts name matches first.
*/
module SearchAdvanced {
  import opened Common
  import opened Models
  import opened RegexEscape
  import opened StableSort

  datatype SearchKind = TeamIdSearch | EmailSearch | ApiEndpointSearch | MemberNameSearch | TeamNameSearch | GeneralSearch

  /** The `search_type` string reported for a kind. */
  function KindName(k: SearchKind): string
  {
    match k
    case TeamIdSearch => "team_id"
    case EmailSearch => "email"
    case ApiEndpointSearch => "api_endpoint"
    case MemberNameSearch => "member_name"
    case TeamNameSearch => "team_name"
    case GeneralSearch => "general"
  }

  const ApiKeywords: seq<string> := ["api", "finder", "validation", "enrichment", "lookup", "search", "follower"]

  /** `/(api|finder|validation|enrichment|lookup|search|follower)/i`. */
  predicate MentionsApi(t: string)
  {
    exists i :: 0 <= i < |ApiKeywords| && CiContains(t, ApiKeywords[i])
  }

  datatype Detected = Detected(kind: SearchKind, query: string)

  /** `detectSearchType`: the first test that holds, in the order id,
      e-mail, api keyword, and `general` otherwise. */
  function DetectSearchType(query: string): (r: Detected)
    ensures r.query == Trim(query)
    ensures r.kind != MemberNameSearch && r.kind != TeamNameSearch
    ensures r.kind == TeamIdSearch <==> Hex24(r.query)
    ensures r.kind == EmailSearch <==> !Hex24(r.query) && HasChar(r.query, '@')
    ensures r.kind == ApiEndpointSearch <==> !Hex24(r.query) && !HasChar(r.query, '@') && MentionsApi(r.query)
    ensures r.kind == GeneralSearch <==> !Hex24(r.query) && !HasChar(r.query, '@') && !MentionsApi(r.query)
  {
    var t := Trim(query);
    if Hex24(t) then Detected(TeamIdSearch, t)
    else if HasChar(t, '@') then Detected(EmailSearch, t)
    else if MentionsApi(t) then Detected(ApiEndpointSearch, t)
    else Detected(GeneralSearch, t)
  }

  /** A trimmed query that is not 24 characters long and holds "@" is an
      e-mail search. */
  lemma DetectEmail(t: string)
    requires Trim(t) == t && |t| != 24 && HasChar(t, '@')
    ensures DetectSearchType(t).kind == EmailSearch
  {
  }

  /** A trimmed query that is not 24 characters long, has no "@" and holds
      an api keyword in some letter case is an api endpoint search. */
  lemma DetectKeyword(t: string, k: nat)
    requires Trim(t) == t && |t| != 24 && !HasChar(t, '@')
    requires k < |ApiKeywords| && CiContains(t, ApiKeywords[k])
    ensures DetectSearchType(t).kind == ApiEndpointSearch
  {
  }

  /** An address that mentions an api keyword is still an e-mail search. */
  lemma DetectEmailFirst(t: string)
    requires t == "finder@acme.io"
    ensures DetectSearchType(t).kind == EmailSearch
  {
    TrimUnchanged(t);
    assert t[6] == '@';
    DetectEmail(t);
  }

  /** Keywords match in any letter case. */
  lemma DetectKeywordAnyCase(t: string)
    requires t == "Email-Finder"
    ensures DetectSearchType(t).kind == ApiEndpointSearch
  {
    TrimUnchanged(t);
    assert forall i :: 0 <= i < |t| ==> t[i] != '@';
    FinderInEmailFinder(t);
    DetectKeyword(t, 1);
  }

  lemma FinderInEmailFinder(t: string)
    requires t == "Email-Finder"
    ensures CiContains(t, ApiKeywords[1])
  {
    var l := ToLower(t);
    assert l[6..12] == "finder";
    assert ToLower(ApiKeywords[1]) == "finder";
    assert OccursAt(l, "finder", 6);
  }

  // ---------------------------------------------------------------------
  // Limits
  // ---------------------------------------------------------------------

  /** `limit === -1 || limit === 999999 || limit === Infinity`. */
  predicate IsUnlimited(v: JsValue)
  {
    v == Num(-1) || v == Num(999999) || v == PosInf
  }

  datatype ApiSummary = ApiSummary(apiName: string, currentLimit: JsValue, unlimited: bool)

  function Summarise(e: ApiLimit): (s: ApiSummary)
    ensures s.apiName == e.key && s.currentLimit == e.value
    ensures s.unlimited <==> IsUnlimited(e.value)
  {
    ApiSummary(e.key, e.value, IsUnlimited(e.value))
  }

  function SummariseAll(entries: seq<ApiLimit>): (r: seq<ApiSummary>)
    ensures |r| == |entries| && forall k :: 0 <= k < |entries| ==> r[k] == Summarise(entries[k])
  {
    seq(|entries|, k requires 0 <= k < |entries| => Summarise(entries[k]))
  }

  /** `regexPattern.test(apiKey)` for the escaped query with flag `i`. */
  predicate KeyMatches(q: string, e: ApiLimit)
  {
    CiContains(e.key, q)
  }

  /** `matching_apis`: the limits whose key contains the query, in key order. */
  function MatchingApis(entries: seq<ApiLimit>, q: string): (r: seq<ApiSummary>)
    ensures forall k :: 0 <= k < |r| ==> CiContains(r[k].apiName, q)
    ensures forall k :: 0 <= k < |entries| && CiContains(entries[k].key, q) ==>
      Summarise(entries[k]) in r
    ensures forall k :: 0 <= k < |r| ==> exists j :: 0 <= j < |entries| && r[k] == Summarise(entries[j])
  {
    var m := Filter(entries, e => KeyMatches(q, e));
    var r := SummariseAll(m);
    forall k | 0 <= k < |entries| && CiContains(entries[k].key, q)
      ensures Summarise(entries[k]) in r
    {
      var j :| 0 <= j < |m| && m[j] == entries[k];
      assert r[j] == Summarise(entries[k]);
    }
    forall k | 0 <= k < |r|
      ensures exists j :: 0 <= j < |entries| && r[k] == Summarise(entries[j])
    {
      var j :| 0 <= j < |entries| && entries[j] == m[k];
    }
    r
  }

  // ---------------------------------------------------------------------
  // The api endpoint branch
  // ---------------------------------------------------------------------

  /** A team kept by the api endpoint filter: it has an `api_limits` object
      and one of its keys contains the query. */
  predicate HasMatchingApi(q: string, t: TeamDoc)
  {
    t.apiLimits.Some? && exists k :: 0 <= k < |t.apiLimits.value| && CiContains(t.apiLimits.value[k].key, q)
  }

  datatype ApiTeam = ApiTeam(id: string, name: string, members: seq<Member>, credits: int, baseCredit: int,
    matchingApis: seq<ApiSummary>, allApiLimits: Option<seq<ApiLimit>>, totalApis: nat)

  function EnrichApiTeam(t: TeamDoc, q: string, includeDetails: bool): (r: ApiTeam)
    requires HasMatchingApi(q, t)
    ensures |r.matchingApis| > 0
    ensures r.totalApis == |t.apiLimits.value|
  {
    var entries := t.apiLimits.value;
    var k :| 0 <= k < |entries| && CiContains(entries[k].key, q);
    var m := MatchingApis(entries, q);
    assert Summarise(entries[k]) in m;
    ApiTeam(t.id, t.name, t.members, OrZero(t.credits), OrZero(t.baseCredit), m,
      if includeDetails then t.apiLimits else None, |entries|)
  }

  function EnrichAll(ts: seq<TeamDoc>, q: string, includeDetails: bool): (r: seq<ApiTeam>)
    requires forall k :: 0 <= k < |ts| ==> HasMatchingApi(q, ts[k])
    ensures |r| == |ts| && forall k :: 0 <= k < |ts| ==> r[k] == EnrichApiTeam(ts[k], q, includeDetails)
  {
    seq(|ts|, k requires 0 <= k < |ts| => EnrichApiTeam(ts[k], q, includeDetails))
  }

  datatype ApiResult = ApiResult(count: nat, teams: seq<ApiTeam>)

  function Prefix<T>(s: seq<T>, n: nat): (r: seq<T>)
    ensures |r| == (if |s| <= n then |s| else n) && r == s[..|r|]
  {
    if |s| <= n then s else s[..n]
  }

  /** `find({}).limit(100)`, the api-key filter, the enrichment, and
      `slice(0, 50)`; `count` is taken before the slice. */
  function SearchApiEndpoints(docs: seq<TeamDoc>, q: string, includeDetails: bool): (r: ApiResult)
  {
    var scanned := Prefix(docs, 100);
    var matching := Filter(scanned, t => HasMatchingApi(q, t));
    var enriched := EnrichAll(matching, q, includeDetails);
    ApiResult(|enriched|, Prefix(enriched, 50))
  }

  /** At most 50 teams come back, each with at least one matching api;
      `count` is the number of teams among the first 100 that have a
      matching api key, never below the number returned. */
  lemma ApiEndpointResults(docs: seq<TeamDoc>, q: string, includeDetails: bool)
    ensures var r := SearchApiEndpoints(docs, q, includeDetails);
      r.count == |Filter(Prefix(docs, 100), t => HasMatchingApi(q, t))| &&
      |r.teams| <= 50 && |r.teams| <= r.count <= 100 &&
      forall k :: 0 <= k < |r.teams| ==>
        |r.teams[k].matchingApis| > 0 && forall j :: 0 <= j < |r.teams[k].matchingApis| ==> CiContains(r.teams[k].matchingApis[j].apiName, q)
  {
  }

  /** Every team among the first 100 with a matching api key is counted,
      and it is returned, enriched, at its place in store order whenever
      fewer than 50 matching teams come before it. */
  lemma ApiEndpointComplete(docs: seq<TeamDoc>, q: string, includeDetails: bool, i: nat)
    requires i < |docs| && i < 100 && HasMatchingApi(q, docs[i])
    ensures var r := SearchApiEndpoints(docs, q, includeDetails);
      var before := |Filter(docs[..i], t => HasMatchingApi(q, t))|;
      before < r.count &&
      (before < 50 ==> before < |r.teams| && r.teams[before] == EnrichApiTeam(docs[i], q, includeDetails))
  {
    var p := t => HasMatchingApi(q, t);
    var scanned := Prefix(docs, 100);
    assert scanned[..i] == docs[..i] && scanned[i] == docs[i];
    FilterPosition(scanned, p, i);
  }

  /** Only the first 100 teams of the collection are ever considered: teams
      stored after them never appear, whatever their api keys. */
  lemma ApiEndpointScansFirst100(docs: seq<TeamDoc>, more: seq<TeamDoc>, q: string, includeDetails: bool)
    requires |docs| >= 100
    ensures SearchApiEndpoints(docs + more, q, includeDetails) == SearchApiEndpoints(docs, q, includeDetails)
  {
    assert Prefix(docs + more, 100) == Prefix(docs, 100);
  }

  // ---------------------------------------------------------------------
  // The pipeline branch
  // ---------------------------------------------------------------------

  predicate SomeMember(t: TeamDoc, q: string, byEmail: bool)
  {
    exists k :: 0 <= k < |t.members| &&
      CiContains(if byEmail then t.members[k].email else t.members[k].name, q)
  }

  /** The `$match` stage of `buildSearchPipeline` for a kind. */
  predicate StageMatches(kind: SearchKind, q: string, t: TeamDoc)
  {
    match kind
    case TeamIdSearch => t.id == q
    case EmailSearch => SomeMember(t, q, true)
    case ApiEndpointSearch => t.apiLimits.Some? && exists k :: 0 <= k < |t.apiLimits.value| && t.apiLimits.value[k].key == q
    case MemberNameSearch => SomeMember(t, q, false)
    case TeamNameSearch => CiContains(t.name, q)
    case GeneralSearch => CiContains(t.name, q) || SomeMember(t, q, false) || SomeMember(t, q, true)
  }

  datatype FoundTeam = FoundTeam(id: string, name: string, members: seq<Member>, credits: int, baseCredit: int,
    apiSummary: seq<ApiSummary>, allApiLimits: Option<seq<ApiLimit>>, totalApis: nat)

  /** The `$addFields` stage and the enrichment of one team; only a team
      with an `api_limits` object gets this far, since `$size` of
      `$objectToArray` of anything else throws. */
  function EnrichFound(t: TeamDoc, includeDetails: bool): (r: FoundTeam)
    requires t.apiLimits.Some?
    ensures r.id == t.id && r.name == t.name && r.members == t.members
    ensures |r.apiSummary| == r.totalApis == |t.apiLimits.value|
    ensures forall k :: 0 <= k < r.totalApis ==> r.apiSummary[k].apiName == t.apiLimits.value[k].key
    ensures r.allApiLimits == (if includeDetails then t.apiLimits else None)
  {
    var entries := t.apiLimits.value;
    FoundTeam(t.id, t.name, t.members, OrZero(t.credits), OrZero(t.baseCredit), SummariseAll(entries),
      if includeDetails then t.apiLimits else None, |entries|)
  }

  predicate AllHaveLimits(ts: seq<TeamDoc>)
  {
    forall k :: 0 <= k < |ts| ==> ts[k].apiLimits.Some?
  }

  function EnrichFoundAll(ts: seq<TeamDoc>, includeDetails: bool): (r: seq<FoundTeam>)
    requires AllHaveLimits(ts)
    ensures |r| == |ts| && forall k :: 0 <= k < |ts| ==> r[k] == EnrichFound(ts[k], includeDetails)
  {
    seq(|ts|, k requires 0 <= k < |ts| => EnrichFound(ts[k], includeDetails))
  }

  /** The `$match` and `$limit: 50` stages: the first 50 teams, in store
      order, that the kind's match stage accepts. The `$addFields` between
      them only runs on the teams `$limit` lets through. */
  function Matched(docs: seq<TeamDoc>, kind: SearchKind, q: string): (r: seq<TeamDoc>)
    ensures |r| <= 50
  {
    Prefix(Filter(docs, t => StageMatches(kind, q, t)), 50)
  }

  // ---------------------------------------------------------------------
  // Name relevance: the comparator as written, and an ordering it means
  // ---------------------------------------------------------------------

  predicate NameIs(a: FoundTeam, q: string) { ToLower(a.name) == ToLower(q) }
  predicate NameStarts(a: FoundTeam, q: string) { StartsWith(ToLower(a.name), ToLower(q)) }

  /** The comparator passed to `sort`, as written. */
  function AsWrittenCompare(a: FoundTeam, b: FoundTeam, q: string): int
  {
    if NameIs(a, q) then -1
    else if NameIs(b, q) then 1
    else if NameStarts(a, q) then -1
    else if NameStarts(b, q) then 1
    else 0
  }

  /** The comparator is not consistent: two teams both named exactly like
      the query (or both starting with it) each compare as smaller than the
      other, which leaves the resulting order to the engine. */
  lemma AsWrittenCompareInconsistent()
    ensures var a := FoundTeam("a", "Acme", [], 0, 0, [], None, 0);
      var b := FoundTeam("b", "ACME", [], 0, 0, [], None, 0);
      AsWrittenCompare(a, b, "acme") == -1 && AsWrittenCompare(b, a, "acme") == -1
    ensures var a := FoundTeam("a", "Acme One", [], 0, 0, [], None, 0);
      var b := FoundTeam("b", "Acme Two", [], 0, 0, [], None, 0);
      AsWrittenCompare(a, b, "acme") == -1 && AsWrittenCompare(b, a, "acme") == -1
  {
    assert ToLower("Acme") == "acme";
    assert ToLower("ACME") == "acme";
    assert ToLower("Acme One")[..4] == "acme";
    assert ToLower("Acme Two")[..4] == "acme";
  }

  /** The tier the comparator evidently intends: exact name, then name
      prefix, then the rest. */
  function NameTier(a: FoundTeam, q: string): nat
  {
    if NameIs(a, q) then 0 else if NameStarts(a, q) then 1 else 2
  }

  /** Wherever the comparator as written is consistent, it agrees with the
      tiers: a team it puts strictly first has the lower tier. */
  lemma AsWrittenAgreesWithTiers(a: FoundTeam, b: FoundTeam, q: string)
    requires NameTier(a, q) != NameTier(b, q)
    ensures AsWrittenCompare(a, b, q) < 0 <==> NameTier(a, q) < NameTier(b, q)
    ensures AsWrittenCompare(a, b, q) == -AsWrittenCompare(b, a, q)
  {
  }

  function TierLe(q: string): (FoundTeam, FoundTeam) -> bool
  {
    (a: FoundTeam, b: FoundTeam) => NameTier(a, q) <= NameTier(b, q)
  }

  lemma TierIsPreorder(q: string)
    ensures TotalPreorder(TierLe(q))
  {
  }

  /** The relevance order, stable within a tier. */
  function SortByName(ts: seq<FoundTeam>, q: string): (r: seq<FoundTeam>)
    ensures multiset(r) == multiset(ts)
    ensures forall i, j :: 0 <= i < j < |r| ==> NameTier(r[i], q) <= NameTier(r[j], q)
  {
    TierIsPreorder(q);
    SortSorted(ts, TierLe(q));
    SortPerm(ts, TierLe(q));
    Sort(ts, TierLe(q))
  }

  /** Exact name matches come before every other team, and name-prefix
      matches before the teams matching neither way. */
  lemma SortByNameOrder(ts: seq<FoundTeam>, q: string, i: nat, j: nat)
    requires i < j < |SortByName(ts, q)|
    ensures var r := SortByName(ts, q);
      (NameIs(r[j], q) ==> NameIs(r[i], q)) && (NameStarts(r[j], q) ==> NameIs(r[i], q) || NameStarts(r[i], q))
  {
  }

  // ---------------------------------------------------------------------
  // Descriptions
  // ---------------------------------------------------------------------

  /** The five search types `getSearchDescription` words individually,
      besides `team_id`. */
  predicate Worded(ty: string)
  {
    ty in {"email", "api_endpoint", "member_name", "team_name", "general"}
  }

  /** The text between the count and the query, opening quote included. */
  function Lead(ty: string): string
  {
    if ty == "email" then " teams with member email matching \""
    else if ty == "api_endpoint" then " teams using API endpoint \""
    else if ty == "member_name" then " teams with member name matching \""
    else if ty == "team_name" then " teams with name matching \""
    else " teams matching \""
  }

  /** The text after the query, closing quote included. */
  function Rest(ty: string): string
  {
    if ty == "general" then "\" (searched team name, member name, and email)" else "\""
  }

  /** What follows the count. */
  function Tail(ty: string, query: string): (r: string)
    ensures |r| > 0 && r[0] == ' '
  {
    if Worded(ty) then Lead(ty) + query + Rest(ty) else " results"
  }

  /** `getSearchDescription`: "Team ID lookup", or "Found <count>" and the
      type's wording (" results" for an unknown type). */
  function GetSearchDescription(ty: string, query: string, count: nat): string
  {
    if ty == "team_id" then "Team ID lookup" else "Found " + NatToString(count) + Tail(ty, query)
  }

  /** The five worded types quote the query right after their lead text. */
  lemma DescriptionQuotesQuery(ty: string, query: string, count: nat)
    requires Worded(ty) && ty != "team_id"
    ensures var d := GetSearchDescription(ty, query, count);
      OccursAt(d, query, 6 + |NatToString(count)| + |Lead(ty)|) && d[5 + |NatToString(count)| + |Lead(ty)|] == '"'
  {
    var p := "Found " + NatToString(count);
    DescriptionShape(ty, query, count, p);
    LeadEndsInQuote(ty);
    Quoted(p, Lead(ty), query, Rest(ty));
  }

  lemma DescriptionShape(ty: string, query: string, count: nat, p: string)
    requires Worded(ty) && ty != "team_id" && p == "Found " + NatToString(count)
    ensures GetSearchDescription(ty, query, count) == p + (Lead(ty) + query + Rest(ty))
    ensures |p| == 6 + |NatToString(count)|
  {
  }

  lemma LeadEndsInQuote(ty: string)
    ensures |Lead(ty)| > 0 && Lead(ty)[|Lead(ty)| - 1] == '"'
  {
  }

  /** In `p + l + q + r` with `l` ending in a quote, `q` follows that quote. */
  lemma Quoted(p: string, l: string, q: string, r: string)
    requires |l| > 0 && l[|l| - 1] == '"'
    ensures var d := p + (l + q + r);
      OccursAt(d, q, |p| + |l|) && d[|p| + |l| - 1] == '"'
  {
    var d := p + (l + q + r);
    assert d == (p + l) + q + r;
    assert d[|p| + |l|..|p| + |l| + |q|] == q;
  }

  lemma SpaceAfter(n: string, r: string)
    ensures |n + " " + r| > |n| && (n + " " + r)[|n|] == ' '
  {
  }

  /** Two digit strings followed by a space start two equal strings only if
      they are the same. */
  lemma DigitsBeforeSpace(n1: string, n2: string, r1: string, r2: string)
    requires forall i :: 0 <= i < |n1| ==> IsDigit(n1[i])
    requires forall i :: 0 <= i < |n2| ==> IsDigit(n2[i])
    requires n1 + " " + r1 == n2 + " " + r2
    ensures n1 == n2
  {
    var s1 := n1 + " " + r1;
    var s2 := n2 + " " + r2;
    if |n1| < |n2| {
      SpaceAfter(n1, r1);
      assert false;
    } else if |n2| < |n1| {
      SpaceAfter(n2, r2);
      assert false;
    } else {
      assert n1 == s1[..|n1|];
      assert n2 == s2[..|n2|];
    }
  }

  /** `String(n)` is one-to-one. */
  lemma NatToStringInjective(c1: nat, c2: nat)
    requires NatToString(c1) == NatToString(c2)
    ensures c1 == c2
  {
    DigitsValueOfNatToString(c1);
    DigitsValueOfNatToString(c2);
  }

  /** "Found " and a digit string, followed by a text starting with a
      space, determine the digit string. */
  lemma FoundCountInjective(n1: string, n2: string, tail: string)
    requires forall i :: 0 <= i < |n1| ==> IsDigit(n1[i])
    requires forall i :: 0 <= i < |n2| ==> IsDigit(n2[i])
    requires |tail| > 0 && tail[0] == ' '
    requires "Found " + n1 + tail == "Found " + n2 + tail
    ensures n1 == n2
  {
    var t := tail[1..];
    assert tail == " " + t;
    var s1 := "Found " + n1 + tail;
    var s2 := "Found " + n2 + tail;
    assert s1[6..] == n1 + " " + t;
    assert s2[6..] == n2 + " " + t;
    DigitsBeforeSpace(n1, n2, t, t);
  }

  /** A description gives its count back: equal descriptions of the same type
      and query report the same count. */
  lemma DescriptionDeterminesCount(ty: string, query: string, c1: nat, c2: nat)
    requires ty != "team_id"
    requires GetSearchDescription(ty, query, c1) == GetSearchDescription(ty, query, c2)
    ensures c1 == c2
  {
    FoundCountInjective(NatToString(c1), NatToString(c2), Tail(ty, query));
    NatToStringInjective(c1, c2);
  }

  // ---------------------------------------------------------------------
  // The handler
  // ---------------------------------------------------------------------

  datatype AdvancedResponse =
    | MissingQuery    // 400
    | PipelineError   // 500: a matched team without an `api_limits` object
    | ApiResults(count: nat, description: string, apiTeams: seq<ApiTeam>)
    | Results(kind: SearchKind, count: nat, description: string, teams: seq<FoundTeam>)

  /** GET over the teams collection `docs`; `q` is "" when absent. The
      pipeline branch takes the first 50 teams its match stage accepts, and
      fails when one of them has no `api_limits` object. */
  function Get(docs: seq<TeamDoc>, q: string, includeDetails: bool): (r: AdvancedResponse)
    ensures q == "" <==> r == MissingQuery
    ensures r.ApiResults? <==> q != "" && DetectSearchType(q).kind == ApiEndpointSearch
    ensures r == PipelineError <==>
      q != "" && DetectSearchType(q).kind != ApiEndpointSearch &&
      !AllHaveLimits(Matched(docs, DetectSearchType(q).kind, DetectSearchType(q).query))
    ensures r.Results? ==> (r.kind == DetectSearchType(q).kind &&
      |r.teams| == r.count == |Matched(docs, r.kind, DetectSearchType(q).query)| &&
      r.description == GetSearchDescription(KindName(r.kind), DetectSearchType(q).query, r.count))
  {
    if q == "" then MissingQuery
    else
      var d := DetectSearchType(q);
      if d.kind == ApiEndpointSearch then
        var res := SearchApiEndpoints(docs, d.query, includeDetails);
        ApiResults(res.count, "Found " + NatToString(res.count) + " teams using API endpoint matching \"" + d.query + "\"", res.teams)
      else
        var found := Matched(docs, d.kind, d.query);
        if !AllHaveLimits(found) then PipelineError
        else
        var sorted := SortByName(EnrichFoundAll(found, includeDetails), d.query);
        assert |multiset(sorted)| == |found|;
        Results(d.kind, |sorted|, GetSearchDescription(KindName(d.kind), d.query, |sorted|), sorted)
  }

  /** Every team of a pipeline result is the summary of a stored team that
      the kind's match stage accepts. */
  lemma ResultsMatchStage(docs: seq<TeamDoc>, q: string, includeDetails: bool, i: nat)
    requires Get(docs, q, includeDetails).Results?
    requires i < |Get(docs, q, includeDetails).teams|
    ensures var r := Get(docs, q, includeDetails);
      exists d :: d in docs && d.apiLimits.Some? && StageMatches(r.kind, DetectSearchType(q).query, d) &&
        r.teams[i] == EnrichFound(d, includeDetails)
  {
    var r := Get(docs, q, includeDetails);
    var d := DetectSearchType(q);
    var all := Filter(docs, t => StageMatches(d.kind, d.query, t));
    var found := Matched(docs, d.kind, d.query);
    PipelineTeams(docs, q, includeDetails);
    var enriched := EnrichFoundAll(found, includeDetails);
    assert r.teams[i] in multiset(enriched);
    var k :| 0 <= k < |enriched| && enriched[k] == r.teams[i];
    assert found[k] == all[k];
  }

  /** A pipeline result is the sorted enrichment of the matched teams. */
  lemma PipelineTeams(docs: seq<TeamDoc>, q: string, includeDetails: bool)
    requires Get(docs, q, includeDetails).Results?
    ensures var d := DetectSearchType(q);
      var found := Matched(docs, d.kind, d.query);
      AllHaveLimits(found) &&
      Get(docs, q, includeDetails).teams == SortByName(EnrichFoundAll(found, includeDetails), d.query)
  {
  }

  /** Conversely, each of the first 50 teams in store order that the match
      stage accepts is listed, so a pipeline result holds exactly
      min(50, number of matches) teams. */
  lemma ResultsAreComplete(docs: seq<TeamDoc>, q: string, includeDetails: bool, k: nat)
    requires Get(docs, q, includeDetails).Results?
    requires k < 50
    requires k < |Filter(docs, t => StageMatches(DetectSearchType(q).kind, DetectSearchType(q).query, t))|
    ensures var d := DetectSearchType(q);
      var all := Filter(docs, t => StageMatches(d.kind, d.query, t));
      all[k].apiLimits.Some? && EnrichFound(all[k], includeDetails) in Get(docs, q, includeDetails).teams
    ensures var d := DetectSearchType(q);
      |Get(docs, q, includeDetails).teams| == if |Filter(docs, t => StageMatches(d.kind, d.query, t))| <= 50
        then |Filter(docs, t => StageMatches(d.kind, d.query, t))| else 50
  {
    var r := Get(docs, q, includeDetails);
    var d := DetectSearchType(q);
    var all := Filter(docs, t => StageMatches(d.kind, d.query, t));
    var found := Matched(docs, d.kind, d.query);
    assert found[k] == all[k];
    PipelineTeams(docs, q, includeDetails);
    var enriched := EnrichFoundAll(found, includeDetails);
    assert enriched[k] in multiset(r.teams);
  }

  /** A team without `api_limits` among the first 50 matches fails the
      whole search, whatever the other teams hold. */
  lemma MissingLimitsFail(docs: seq<TeamDoc>, q: string, includeDetails: bool, i: nat)
    requires q != "" && DetectSearchType(q).kind != ApiEndpointSearch
    requires i < |docs| && docs[i].apiLimits.None?
    requires StageMatches(DetectSearchType(q).kind, DetectSearchType(q).query, docs[i])
    requires |Filter(docs[..i], t => StageMatches(DetectSearchType(q).kind, DetectSearchType(q).query, t))| < 50
    ensures Get(docs, q, includeDetails) == PipelineError
  {
    var d := DetectSearchType(q);
    var p := t => StageMatches(d.kind, d.query, t);
    FilterPosition(docs, p, i);
    var j := |Filter(docs[..i], p)|;
    var found := Matched(docs, d.kind, d.query);
    assert found[j] == Filter(docs, p)[j] == docs[i];
  }
}

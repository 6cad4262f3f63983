/**
  GET /api/teams/by-member: the teams having a member whose e-mail contains
  the given text (case-insensitively), each with the members that matched,
  its api limits classified by size and grouped by class, and overall
  statistics.
*/
module ByMember {
  import opened Common
  import opened Models
  import opened RegexEscape
  import opened StableSort

  datatype LimitStatus = Disabled | Low | Normal | High

  /** The status of a limit read as `typeof limit === 'number' ? limit : 0`:
      0 is disabled, below 100 low (negative limits included), below 1000
      normal, and anything larger, +Infinity included, high. */
  function StatusOf(v: ExtInt): (s: LimitStatus)
    ensures s == Disabled <==> v == Fin(0)
    ensures s == Low <==> v.Fin? && v.n != 0 && v.n < 100
    ensures s == Normal <==> v.Fin? && 100 <= v.n < 1000
    ensures s == High <==> v == Inf || (v.Fin? && v.n >= 1000)
  {
    if v == Fin(0) then Disabled
    else if v.Fin? && v.n < 100 then Low
    else if v.Fin? && v.n < 1000 then Normal
    else High
  }

  datatype ApiConfig = ApiConfig(apiName: string, currentLimit: ExtInt, unlimited: bool, status: LimitStatus)

  /** One element of `apiConfigs`. */
  function Configure(e: ApiLimit): (c: ApiConfig)
    ensures c.apiName == e.key
    ensures !IsNumber(e.value) ==> c.currentLimit == Fin(0) && c.status == Disabled && !c.unlimited
    ensures c.unlimited <==> e.value == Num(-1) || e.value == Num(999999)
  {
    var v := NumberOrZero(e.value);
    ApiConfig(e.key, v, v == Fin(-1) || v == Fin(999999), StatusOf(v))
  }

  /** `apiConfigs`: one configuration per `api_limits` entry, in key order;
      none when the field is missing. */
  function Configs(apiLimits: Option<seq<ApiLimit>>): (r: seq<ApiConfig>)
    ensures apiLimits.None? ==> r == []
    ensures apiLimits.Some? ==> (|r| == |apiLimits.value| &&
      forall k :: 0 <= k < |r| ==> r[k] == Configure(apiLimits.value[k]))
  {
    if apiLimits.None? then []
    else seq(|apiLimits.value|, k requires 0 <= k < |apiLimits.value| => Configure(apiLimits.value[k]))
  }

  predicate HasStatus(s: LimitStatus, c: ApiConfig)
  {
    c.status == s
  }

  predicate IsUnlimitedConfig(c: ApiConfig)
  {
    c.unlimited
  }

  datatype ByStatus = ByStatus(disabled: seq<ApiConfig>, low: seq<ApiConfig>, normal: seq<ApiConfig>,
    high: seq<ApiConfig>, unlimited: seq<ApiConfig>)

  /** `apisByStatus`. */
  function Group(cs: seq<ApiConfig>): ByStatus
  {
    ByStatus(Filter(cs, c => HasStatus(Disabled, c)), Filter(cs, c => HasStatus(Low, c)),
      Filter(cs, c => HasStatus(Normal, c)), Filter(cs, c => HasStatus(High, c)),
      Filter(cs, IsUnlimitedConfig))
  }

  function GroupOf(g: ByStatus, s: LimitStatus): seq<ApiConfig>
  {
    match s
    case Disabled => g.disabled
    case Low => g.low
    case Normal => g.normal
    case High => g.high
  }

  /** The four status groups split the configurations: their sizes add up to
      the number of configurations, and each configuration is in the group
      of its own status. */
  lemma {:induction false} GroupPartition(cs: seq<ApiConfig>)
    ensures var g := Group(cs);
      |g.disabled| + |g.low| + |g.normal| + |g.high| == |cs|
    ensures forall k :: 0 <= k < |cs| ==> cs[k] in GroupOf(Group(cs), cs[k].status)
  {
    if |cs| > 0 {
      GroupPartition(cs[1..]);
    }
  }

  /** The status groups never share a configuration name with a different
      status: a configuration in a group has that group's status. */
  lemma GroupsHaveTheirStatus(cs: seq<ApiConfig>, s: LimitStatus)
    ensures forall c :: c in GroupOf(Group(cs), s) ==> c.status == s
  {
    var g := GroupOf(Group(cs), s);
    forall c | c in g
      ensures c.status == s
    {
      var k :| 0 <= k < |g| && g[k] == c;
    }
  }

  /** The `unlimited` group overlaps the others: its members are exactly the
      -1 and 999999 limits, which are low and high respectively. */
  lemma UnlimitedOverlaps(cs: seq<ApiConfig>, e: ApiLimit)
    requires Configure(e) in cs
    ensures Configure(e) in Group(cs).unlimited <==> e.value == Num(-1) || e.value == Num(999999)
    ensures e.value == Num(-1) ==> Configure(e) in Group(cs).low
    ensures e.value == Num(999999) ==> Configure(e) in Group(cs).high
  {
    var k :| 0 <= k < |cs| && cs[k] == Configure(e);
    GroupPartition(cs);
    var u := Group(cs).unlimited;
    if Configure(e) in u {
      var j :| 0 <= j < |u| && u[j] == Configure(e);
    }
  }

  function ConfigLe(a: ApiConfig, b: ApiConfig): bool
  {
    StringLe(a.apiName, b.apiName)
  }

  /** `all_apis`: the configurations sorted by name. */
  function ByName(cs: seq<ApiConfig>): (r: seq<ApiConfig>)
    ensures multiset(r) == multiset(cs)
    ensures forall i, j :: 0 <= i < j < |r| ==> StringLe(r[i].apiName, r[j].apiName)
  {
    KeyOrderIsPreorder((c: ApiConfig) => c.apiName, ConfigLe);
    SortSorted(cs, ConfigLe);
    SortPerm(cs, ConfigLe);
    Sort(cs, ConfigLe)
  }

  datatype ApiConfigurations = ApiConfigurations(totalApis: nat, byStatus: ByStatus, allApis: seq<ApiConfig>)

  datatype EnrichedTeam = EnrichedTeam(id: string, name: string, credits: int, baseCredit: int, totalMembers: nat,
    matchingMembers: seq<Member>, apis: ApiConfigurations, followersPerTeam: JsValue, followersPerRequest: JsValue)

  /** `x || null`. */
  function OrNull(v: JsValue): (r: JsValue)
    ensures Truthy(v) ==> r == v
    ensures !Truthy(v) ==> r == Null
  {
    if Truthy(v) then v else Null
  }

  predicate EmailMatches(pattern: string, m: Member)
  {
    CiContains(m.email, pattern)
  }

  function Enrich(t: TeamDoc, pattern: string): (r: EnrichedTeam)
    ensures r.apis.totalApis == |r.apis.allApis| == |Configs(t.apiLimits)|
    ensures multiset(r.apis.allApis) == multiset(Configs(t.apiLimits))
    ensures forall k :: 0 <= k < |r.matchingMembers| ==>
      r.matchingMembers[k] in t.members && CiContains(r.matchingMembers[k].email, pattern)
    ensures forall k :: 0 <= k < |t.members| && CiContains(t.members[k].email, pattern) ==>
      t.members[k] in r.matchingMembers
  {
    var cs := Configs(t.apiLimits);
    var sorted := ByName(cs);
    assert |multiset(sorted)| == |cs|;
    EnrichedTeam(t.id, t.name, OrZero(t.credits), OrZero(t.baseCredit), |t.members|,
      Filter(t.members, m => EmailMatches(pattern, m)),
      ApiConfigurations(|cs|, Group(cs), sorted),
      OrNull(t.followersTeamLimit), OrNull(t.followersRequestLimit))
  }

  function EnrichAll(ts: seq<TeamDoc>, pattern: string): (r: seq<EnrichedTeam>)
    ensures |r| == |ts| && forall k :: 0 <= k < |ts| ==> r[k] == Enrich(ts[k], pattern)
  {
    seq(|ts|, k requires 0 <= k < |ts| => Enrich(ts[k], pattern))
  }

  // ---------------------------------------------------------------------
  // Statistics
  // ---------------------------------------------------------------------

  /** `total_api_configurations`: the reduce over the per-team totals. */
  function TotalApis(ts: seq<EnrichedTeam>): nat
  {
    if |ts| == 0 then 0 else ts[0].apis.totalApis + TotalApis(ts[1..])
  }

  function NamesOf(cs: seq<ApiConfig>): (r: seq<string>)
    ensures |r| == |cs| && forall k :: 0 <= k < |cs| ==> r[k] == cs[k].apiName
  {
    seq(|cs|, k requires 0 <= k < |cs| => cs[k].apiName)
  }

  /** The `flatMap` of every team's api names. */
  function AllNames(ts: seq<EnrichedTeam>): seq<string>
  {
    if |ts| == 0 then [] else NamesOf(ts[0].apis.allApis) + AllNames(ts[1..])
  }

  lemma {:induction false} AllNamesLength(ts: seq<EnrichedTeam>)
    requires forall k :: 0 <= k < |ts| ==> ts[k].apis.totalApis == |ts[k].apis.allApis|
    ensures |AllNames(ts)| == TotalApis(ts)
  {
    if |ts| > 0 {
      AllNamesLength(ts[1..]);
    }
  }

  lemma {:induction false} DistinctAtMostLength<T>(s: seq<T>)
    ensures |set x | x in s| <= |s|
  {
    if |s| > 0 {
      DistinctAtMostLength(s[1..]);
      assert (set x | x in s) == (set x | x in s[1..]) + {s[0]};
    }
  }

  /** `Math.round(total / count)` for a non-negative total and a positive
      count: the quotient rounded to the nearest integer, halves up. */
  function RoundedAverage(total: nat, count: nat): (r: nat)
    requires count > 0
    ensures count * (2 * r - 1) <= 2 * total < count * (2 * r + 1)
  {
    var r := (2 * total + count) / (2 * count);
    assert 2 * count * r <= 2 * total + count < 2 * count * (r + 1);
    r
  }

  datatype Summary = Summary(totalTeams: nat, totalApiConfigurations: nat, uniqueApiEndpoints: nat, averageApisPerTeam: nat)

  function Summarise(ts: seq<EnrichedTeam>): (s: Summary)
    requires forall k :: 0 <= k < |ts| ==> ts[k].apis.totalApis == |ts[k].apis.allApis|
    ensures s.totalTeams == |ts|
    ensures s.uniqueApiEndpoints <= s.totalApiConfigurations
  {
    var total := TotalApis(ts);
    AllNamesLength(ts);
    DistinctAtMostLength(AllNames(ts));
    Summary(|ts|, total, |set x | x in AllNames(ts)|, if |ts| > 0 then RoundedAverage(total, |ts|) else 0)
  }

  // ---------------------------------------------------------------------
  // The handler
  // ---------------------------------------------------------------------

  datatype MemberResponse =
    | MissingEmail                                           // 400
    | NoTeams(memberEmail: string)                           // teams_found 0
    | Found(memberEmail: string, teams: seq<EnrichedTeam>, summary: Summary)

  predicate HasMatchingMember(pattern: string, t: TeamDoc)
  {
    exists k :: 0 <= k < |t.members| && CiContains(t.members[k].email, pattern)
  }

  /** The teams a pattern lists, before enrichment. */
  function Listed(docs: seq<TeamDoc>, pattern: string): (r: seq<TeamDoc>)
    ensures forall k :: 0 <= k < |docs| && HasMatchingMember(pattern, docs[k]) ==> docs[k] in r
  {
    Filter(docs, t => HasMatchingMember(pattern, t))
  }

  /** GET over the teams collection; `email` is "" when the parameter is
      absent. The pattern is the trimmed address. */
  function Get(docs: seq<TeamDoc>, email: string): (r: MemberResponse)
    ensures email == "" <==> r == MissingEmail
    ensures r.NoTeams? <==> email != "" && forall k :: 0 <= k < |docs| ==> !HasMatchingMember(Trim(email), docs[k])
    ensures r.Found? ==> r.summary.totalTeams == |r.teams| > 0 && r.summary.uniqueApiEndpoints <= r.summary.totalApiConfigurations
  {
    if email == "" then MissingEmail
    else
      var pattern := Trim(email);
      var teams := Listed(docs, pattern);
      if |teams| == 0 then NoTeams(email)
      else
        var enriched := EnrichAll(teams, pattern);
        Found(email, enriched, Summarise(enriched))
  }

  /** Each listed team has a member matching the pattern, listed among its
      `matching_members`. */
  lemma FoundTeamsMatch(docs: seq<TeamDoc>, email: string, k: nat)
    requires Get(docs, email).Found? && k < |Get(docs, email).teams|
    ensures |Get(docs, email).teams[k].matchingMembers| > 0
  {
    var pattern := Trim(email);
    var teams := Listed(docs, pattern);
    var r := Get(docs, email);
    assert r.teams == EnrichAll(teams, pattern);
    var t := teams[k];
    assert HasMatchingMember(pattern, t);
    var i :| 0 <= i < |t.members| && CiContains(t.members[i].email, pattern);
    assert t.members[i] in Enrich(t, pattern).matchingMembers;
  }

  /** Every team with a matching member is listed. */
  lemma FoundTeamsComplete(docs: seq<TeamDoc>, email: string, k: nat)
    requires Get(docs, email).Found? && k < |docs| && HasMatchingMember(Trim(email), docs[k])
    ensures exists j :: 0 <= j < |Get(docs, email).teams| && Get(docs, email).teams[j] == Enrich(docs[k], Trim(email))
  {
    var pattern := Trim(email);
    var teams := Listed(docs, pattern);
    var r := Get(docs, email);
    assert r.teams == EnrichAll(teams, pattern);
    var j :| 0 <= j < |teams| && teams[j] == docs[k];
    assert r.teams[j] == Enrich(docs[k], pattern);
  }

  /** An address of blanks trims to the empty pattern, which every e-mail
      contains: every team with a member is listed. */
  lemma BlankEmailMatchesAll(t: TeamDoc)
    requires |t.members| > 0
    ensures HasMatchingMember(Trim(" "), t)
  {
    assert Trim(" ") == "" by {
      assert TrimStart(" ") == TrimStart("");
    }
    assert OccursAt(ToLower(t.members[0].email), ToLower(""), 0);
  }
}

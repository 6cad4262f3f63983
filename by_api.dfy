/**
  GET /api/teams/by-api: every team with an api limit whose key matches the
  given endpoint (as a substring, or whole with `exact=true`, ignoring case)
  and whose value lies within optional bounds; teams come out with the
  lowest limit first, followed by counting statistics.
*/
module ByApi {
  import opened Common
  import opened Models
  import opened RegexEscape
  import opened StableSort

  /** `p && parseInt(p)`-style bound: absent when the parameter is empty,
      and absent too when it does not parse, since a comparison with NaN is
      false and never excludes anything. `parseInt` is given no radix, so a
      "0x" prefix reads hexadecimal. */
  function BoundOf(param: string): (r: Option<int>)
    ensures param == "" ==> r.None?
    ensures param != "" ==> r == ParseIntAuto(param)
  {
    if param == "" then None else ParseIntAuto(param)
  }

  datatype Bounds = Bounds(min: Option<int>, max: Option<int>)

  predicate KeyMatch(q: string, exact: bool, key: string)
  {
    if exact then CiEquals(key, q) else CiContains(key, q)
  }

  /** Neither `limitValue < min` nor `limitValue > max` holds. */
  predicate WithinBounds(v: ExtInt, b: Bounds)
  {
    !(b.min.Some? && ExtLt(v, Fin(b.min.value))) && !(b.max.Some? && ExtLt(Fin(b.max.value), v))
  }

  /** The filter over `Object.entries(team.api_limits)`. */
  predicate Selected(q: string, exact: bool, b: Bounds, e: ApiLimit)
  {
    KeyMatch(q, exact, e.key) && WithinBounds(NumberOrZero(e.value), b)
  }

  datatype MatchingApi = MatchingApi(apiName: string, currentLimit: JsValue, unlimited: bool, needsAttention: bool)

  /** One element of `matching_apis`. */
  function Describe(e: ApiLimit): (m: MatchingApi)
    ensures m.apiName == e.key && m.currentLimit == e.value
    ensures m.unlimited <==> e.value == Num(-1) || e.value == Num(999999)
    ensures m.needsAttention <==> e.value.Num? && e.value.n < 100
  {
    MatchingApi(e.key, e.value, e.value == Num(-1) || e.value == Num(999999), e.value.Num? && e.value.n < 100)
  }

  function DescribeAll(es: seq<ApiLimit>): (r: seq<MatchingApi>)
    ensures |r| == |es| && forall k :: 0 <= k < |es| ==> r[k] == Describe(es[k])
  {
    seq(|es|, k requires 0 <= k < |es| => Describe(es[k]))
  }

  function MatchingApis(entries: seq<ApiLimit>, q: string, exact: bool, b: Bounds): (r: seq<MatchingApi>)
    ensures forall k :: 0 <= k < |r| ==> exists e :: e in entries && Selected(q, exact, b, e) && r[k] == Describe(e)
    ensures forall e :: e in entries && Selected(q, exact, b, e) ==> Describe(e) in r
  {
    var f := Filter(entries, e => Selected(q, exact, b, e));
    var r := DescribeAll(f);
    forall e | e in entries && Selected(q, exact, b, e)
      ensures Describe(e) in r
    {
      var i :| 0 <= i < |entries| && entries[i] == e;
      var j :| 0 <= j < |f| && f[j] == e;
      assert r[j] == Describe(e);
    }
    r
  }

  datatype ApiTeam = ApiTeam(id: string, name: string, members: seq<Member>, credits: int,
    matchingApis: seq<MatchingApi>, totalApis: nat)

  /** The `map` step: `null` for a team without `api_limits` or without a
      selected entry. */
  function TeamEntry(t: TeamDoc, q: string, exact: bool, b: Bounds): (r: Option<ApiTeam>)
    ensures r.Some? <==> t.apiLimits.Some? && exists e :: e in t.apiLimits.value && Selected(q, exact, b, e)
    ensures r.Some? ==> |r.value.matchingApis| > 0 && r.value.id == t.id && r.value.totalApis == |t.apiLimits.value|
  {
    if t.apiLimits.None? then None
    else
      var m := MatchingApis(t.apiLimits.value, q, exact, b);
      if |m| == 0 then None
      else
        var x := m[0];
        assert exists e :: e in t.apiLimits.value && Selected(q, exact, b, e) && x == Describe(e);
        Some(ApiTeam(t.id, t.name, t.members, OrZero(t.credits), m, |t.apiLimits.value|))
  }

  /** The `map` followed by `filter(team => team !== null)`. */
  function Collect(docs: seq<TeamDoc>, q: string, exact: bool, b: Bounds): (r: seq<ApiTeam>)
    ensures |r| <= |docs|
    ensures forall k :: 0 <= k < |r| ==> exists i :: 0 <= i < |docs| && TeamEntry(docs[i], q, exact, b) == Some(r[k])
    ensures forall i :: 0 <= i < |docs| && TeamEntry(docs[i], q, exact, b).Some? ==> TeamEntry(docs[i], q, exact, b).value in r
  {
    if |docs| == 0 then []
    else
      var rest := Collect(docs[1..], q, exact, b);
      assert forall i :: 1 <= i < |docs| ==> docs[i] == docs[1..][i - 1];
      match TeamEntry(docs[0], q, exact, b)
      case Some(x) => [x] + rest
      case None => rest
  }

  // ---------------------------------------------------------------------
  // Ordering
  // ---------------------------------------------------------------------

  /** `typeof current_limit === 'number' ? current_limit : Infinity`. */
  function LimitKey(a: MatchingApi): ExtInt
  {
    match a.currentLimit
    case Num(n) => Fin(n)
    case _ => Inf
  }

  /** `Math.min(...)` over the keys; +Infinity for none. */
  function MinLimit(apis: seq<MatchingApi>): (r: ExtInt)
    ensures forall k :: 0 <= k < |apis| ==> ExtLe(r, LimitKey(apis[k]))
    ensures |apis| > 0 ==> exists k :: 0 <= k < |apis| && r == LimitKey(apis[k])
    ensures |apis| == 0 ==> r == Inf
  {
    if |apis| == 0 then Inf
    else
      var rest := MinLimit(apis[1..]);
      assert forall k :: 1 <= k < |apis| ==> apis[k] == apis[1..][k - 1];
      ExtMin(LimitKey(apis[0]), rest)
  }

  /** The comparator `aMinLimit - bMinLimit` read as "not after": its result
      is never positive. `Infinity - Infinity` is NaN, which the sort treats
      as 0, so two teams without numeric limits compare equal. */
  function TeamLe(a: ApiTeam, b: ApiTeam): bool
  {
    ExtLe(MinLimit(a.matchingApis), MinLimit(b.matchingApis))
  }

  lemma TeamLePreorder()
    ensures TotalPreorder(TeamLe)
  {
  }

  function ByMinLimit(ts: seq<ApiTeam>): (r: seq<ApiTeam>)
    ensures multiset(r) == multiset(ts)
    ensures forall i, j :: 0 <= i < j < |r| ==> ExtLe(MinLimit(r[i].matchingApis), MinLimit(r[j].matchingApis))
  {
    TeamLePreorder();
    SortSorted(ts, TeamLe);
    SortPerm(ts, TeamLe);
    Sort(ts, TeamLe)
  }

  // ---------------------------------------------------------------------
  // Statistics
  // ---------------------------------------------------------------------

  function TotalInstances(ts: seq<ApiTeam>): nat
  {
    if |ts| == 0 then 0 else |ts[0].matchingApis| + TotalInstances(ts[1..])
  }

  predicate NeedsAttention(t: ApiTeam)
  {
    exists k :: 0 <= k < |t.matchingApis| && t.matchingApis[k].needsAttention
  }

  /** A limit as the average counts it: a number as it is, anything else 0. */
  function LimitOf(m: MatchingApi): ExtInt
  {
    NumberOrZero(m.currentLimit)
  }

  /** Some listed limit is `Infinity`, which makes every sum infinite. */
  predicate HasInfiniteLimit(ts: seq<ApiTeam>)
  {
    exists k, j :: 0 <= k < |ts| && 0 <= j < |ts[k].matchingApis| && LimitOf(ts[k].matchingApis[j]).Inf?
  }

  /** The sum of the finite limits. */
  function LimitSum(ms: seq<MatchingApi>): int
  {
    if |ms| == 0 then 0
    else (if LimitOf(ms[0]).Fin? then LimitOf(ms[0]).n else 0) + LimitSum(ms[1..])
  }

  /** `avgTeamLimit`: the team's mean limit (a listed team always has a
      matching api). */
  function TeamMean(t: ApiTeam): real
  {
    if |t.matchingApis| == 0 then 0.0 else LimitSum(t.matchingApis) as real / |t.matchingApis| as real
  }

  function MeanSum(ts: seq<ApiTeam>): real
  {
    if |ts| == 0 then 0.0 else TeamMean(ts[0]) + MeanSum(ts[1..])
  }

  /** `Math.round(x)`: the nearest integer, halves rounded up. */
  function Round(x: real): (r: int)
    ensures r as real - 0.5 <= x < r as real + 0.5
  {
    (x + 0.5).Floor
  }

  /** `average_limit`: the mean over the listed teams of each team's mean
      limit, rounded; 0 for no team, and `Infinity` once a limit is. */
  function AverageLimit(ts: seq<ApiTeam>): ExtInt
  {
    if |ts| == 0 then Fin(0)
    else if HasInfiniteLimit(ts) then Inf
    else Fin(Round(MeanSum(ts) / |ts| as real))
  }

  datatype Statistics = Statistics(totalTeams: nat, totalApiInstances: nat, teamsNeedingAttention: nat, averageLimit: ExtInt)

  function Stats(ts: seq<ApiTeam>): Statistics
  {
    Statistics(|ts|, TotalInstances(ts), |Filter(ts, NeedsAttention)|, AverageLimit(ts))
  }

  /** A team with a matching api whose limits are all numbers between `lo`
      and `hi`. */
  predicate TeamWithin(t: ApiTeam, lo: int, hi: int)
  {
    |t.matchingApis| > 0 &&
    forall j :: 0 <= j < |t.matchingApis| ==>
      LimitOf(t.matchingApis[j]).Fin? && lo <= LimitOf(t.matchingApis[j]).n <= hi
  }

  /** When every listed limit is a number between `lo` and `hi`, so is the
      average limit. */
  lemma AverageWithin(ts: seq<ApiTeam>, lo: int, hi: int)
    requires |ts| > 0 && forall k :: 0 <= k < |ts| ==> TeamWithin(ts[k], lo, hi)
    ensures AverageLimit(ts).Fin? && lo <= AverageLimit(ts).n <= hi
  {
    MeanSumWithin(ts, lo, hi);
    var t := |ts| as real;
    var x := MeanSum(ts) / t;
    QuotientWithin(MeanSum(ts), t, lo as real, hi as real);
    assert lo as real <= x <= hi as real;
    assert !HasInfiniteLimit(ts) by {
      forall k, j | 0 <= k < |ts| && 0 <= j < |ts[k].matchingApis|
        ensures LimitOf(ts[k].matchingApis[j]).Fin?
      {
        assert TeamWithin(ts[k], lo, hi);
      }
    }
  }

  lemma {:induction false} MeanSumWithin(ts: seq<ApiTeam>, lo: int, hi: int)
    requires forall k :: 0 <= k < |ts| ==> TeamWithin(ts[k], lo, hi)
    ensures |ts| as real * (lo as real) <= MeanSum(ts) <= |ts| as real * (hi as real)
  {
    if |ts| > 0 {
      var rest := ts[1..];
      assert forall k :: 0 <= k < |rest| ==> rest[k] == ts[k + 1];
      MeanSumWithin(rest, lo, hi);
      TeamMeanWithin(ts[0], lo, hi);
      StepWithin(MeanSum(rest), TeamMean(ts[0]), |rest| as real, |ts| as real, lo as real, hi as real);
      assert MeanSum(ts) == TeamMean(ts[0]) + MeanSum(rest);
    }
  }

  lemma TeamMeanWithin(t: ApiTeam, lo: int, hi: int)
    requires TeamWithin(t, lo, hi)
    ensures lo as real <= TeamMean(t) <= hi as real
  {
    var ms := t.matchingApis;
    LimitSumWithin(ms, lo, hi);
    ProductAsReal(|ms|, lo);
    ProductAsReal(|ms|, hi);
    QuotientWithin(LimitSum(ms) as real, |ms| as real, lo as real, hi as real);
  }

  lemma ProductAsReal(a: int, b: int)
    ensures (a * b) as real == a as real * b as real
  {
  }

  lemma StepWithin(rest: real, m: real, r: real, n: real, lo: real, hi: real)
    requires r * lo <= rest <= r * hi && lo <= m <= hi && n == r + 1.0
    ensures n * lo <= m + rest <= n * hi
  {
  }

  lemma {:induction false} LimitSumWithin(ms: seq<MatchingApi>, lo: int, hi: int)
    requires forall j :: 0 <= j < |ms| ==> LimitOf(ms[j]).Fin? && lo <= LimitOf(ms[j]).n <= hi
    ensures |ms| * lo <= LimitSum(ms) <= |ms| * hi
  {
    if |ms| > 0 {
      LimitSumWithin(ms[1..], lo, hi);
    }
  }

  lemma QuotientWithin(s: real, n: real, lo: real, hi: real)
    requires n > 0.0 && n * lo <= s <= n * hi
    ensures lo <= s / n <= hi
  {
    assert s / n * n == s;
  }

  /** Every listed team has a matching api, so there are at least as many
      api instances as teams, and no more teams need attention than are
      listed. */
  lemma {:induction false} StatsBounds(ts: seq<ApiTeam>)
    requires forall k :: 0 <= k < |ts| ==> |ts[k].matchingApis| > 0
    ensures Stats(ts).totalTeams <= Stats(ts).totalApiInstances
    ensures Stats(ts).teamsNeedingAttention <= Stats(ts).totalTeams
  {
    if |ts| > 0 {
      StatsBounds(ts[1..]);
    }
  }

  // ---------------------------------------------------------------------
  // The handler
  // ---------------------------------------------------------------------

  datatype ApiResponse =
    | MissingApi   // 400
    | Results(exactMatch: bool, minLimit: Option<int>, maxLimit: Option<int>, statistics: Statistics, teams: seq<ApiTeam>)

  /** GET over the teams collection; an absent parameter is "". */
  function Get(docs: seq<TeamDoc>, api: string, minParam: string, maxParam: string, exactParam: string): (r: ApiResponse)
    ensures api == "" <==> r == MissingApi
    ensures r.Results? ==> (r.exactMatch <==> exactParam == "true")
  {
    if api == "" then MissingApi
    else
      var exact := exactParam == "true";
      var b := Bounds(BoundOf(minParam), BoundOf(maxParam));
      var teams := ByMinLimit(Collect(docs, api, exact, b));
      Results(exact, b.min, b.max, Stats(teams), teams)
  }

  /** The sort argument of a successful request. */
  function Unsorted(docs: seq<TeamDoc>, api: string, minParam: string, maxParam: string, exactParam: string): seq<ApiTeam>
  {
    Collect(docs, api, exactParam == "true", Bounds(BoundOf(minParam), BoundOf(maxParam)))
  }

  lemma ResultsAreUnsortedPermuted(docs: seq<TeamDoc>, api: string, minParam: string, maxParam: string, exactParam: string)
    requires api != ""
    ensures multiset(Get(docs, api, minParam, maxParam, exactParam).teams) == multiset(Unsorted(docs, api, minParam, maxParam, exactParam))
  {
  }

  /** Every listed team is the entry of a stored team with a selected api. */
  lemma ResultsAreSelected(docs: seq<TeamDoc>, api: string, minParam: string, maxParam: string, exactParam: string, k: nat)
    requires api != "" && k < |Get(docs, api, minParam, maxParam, exactParam).teams|
    ensures var b := Bounds(BoundOf(minParam), BoundOf(maxParam));
      exists i :: 0 <= i < |docs| &&
        TeamEntry(docs[i], api, exactParam == "true", b) == Some(Get(docs, api, minParam, maxParam, exactParam).teams[k])
  {
    var r := Get(docs, api, minParam, maxParam, exactParam).teams;
    var c := Unsorted(docs, api, minParam, maxParam, exactParam);
    ResultsAreUnsortedPermuted(docs, api, minParam, maxParam, exactParam);
    assert r[k] in multiset(c);
    var j :| 0 <= j < |c| && c[j] == r[k];
  }

  /** Every stored team with a selected api is listed. */
  lemma ResultsAreComplete(docs: seq<TeamDoc>, api: string, minParam: string, maxParam: string, exactParam: string, i: nat)
    requires api != "" && i < |docs|
    requires TeamEntry(docs[i], api, exactParam == "true", Bounds(BoundOf(minParam), BoundOf(maxParam))).Some?
    ensures TeamEntry(docs[i], api, exactParam == "true", Bounds(BoundOf(minParam), BoundOf(maxParam))).value
      in Get(docs, api, minParam, maxParam, exactParam).teams
  {
    var c := Unsorted(docs, api, minParam, maxParam, exactParam);
    ResultsAreUnsortedPermuted(docs, api, minParam, maxParam, exactParam);
    assert TeamEntry(docs[i], api, exactParam == "true", Bounds(BoundOf(minParam), BoundOf(maxParam))).value in multiset(c);
  }

  /** Teams come lowest minimum limit first, and the statistics are bounded
      by each other. */
  lemma ResultsOrderAndStats(docs: seq<TeamDoc>, api: string, minParam: string, maxParam: string, exactParam: string)
    requires api != ""
    ensures var r := Get(docs, api, minParam, maxParam, exactParam);
      (forall i, j :: 0 <= i < j < |r.teams| ==> ExtLe(MinLimit(r.teams[i].matchingApis), MinLimit(r.teams[j].matchingApis))) &&
      r.statistics.totalTeams <= r.statistics.totalApiInstances &&
      r.statistics.teamsNeedingAttention <= r.statistics.totalTeams
  {
    var r := Get(docs, api, minParam, maxParam, exactParam);
    forall k | 0 <= k < |r.teams|
      ensures |r.teams[k].matchingApis| > 0
    {
      ResultsAreSelected(docs, api, minParam, maxParam, exactParam, k);
    }
    StatsBounds(r.teams);
  }

  /** With `exact=true` only whole keys match (ignoring case); every such key
      also matches without it. */
  lemma ExactIsNarrower(q: string, key: string)
    requires KeyMatch(q, true, key)
    ensures KeyMatch(q, false, key)
  {
    CiEqualsContains(key, q);
  }

  /** Bounds compare numbers as they are and anything else as 0; +Infinity
      passes every lower bound and fails every upper bound. */
  lemma BoundsExamples(m: int)
    ensures !WithinBounds(NumberOrZero(Str("500")), Bounds(Some(1), None))
    ensures WithinBounds(NumberOrZero(PosInf), Bounds(Some(m), None))
    ensures !WithinBounds(NumberOrZero(PosInf), Bounds(None, Some(m)))
  {
  }
}

/**
  GET /api/teams/logs: one page of a team's usage log, newest first, each
  entry annotated with the team's available credit just before and just
  after that usage event. The balances are rebuilt backwards from the
  current balance: the page starts at the current balance plus everything
  consumed by the newer pages, and every step back in time adds the entry's
  `credits_used`.
*/
module TeamLogs {
  import opened Common
  import opened Models

  /** A `team_logs` document: the owning team key and the credits the
      request consumed. */
  datatype TeamLog = TeamLog(teamUid: string, creditsUsed: int)

  /** A log entry with `before_balance` and `after_balance`. */
  datatype Annotated = Annotated(log: TeamLog, before: int, after: int)

  function Deltas(logs: seq<TeamLog>): (d: seq<int>)
    ensures |d| == |logs|
    ensures forall k :: 0 <= k < |logs| ==> d[k] == logs[k].creditsUsed
  {
    seq(|logs|, k requires 0 <= k < |logs| => logs[k].creditsUsed)
  }

  /** Total credits consumed by `logs`. */
  function DeltaSum(logs: seq<TeamLog>): int
  {
    if |logs| == 0 then 0 else logs[0].creditsUsed + DeltaSum(logs[1..])
  }

  /** The running total is the sum of the per-entry deltas. */
  lemma {:induction false} DeltaSumIsSum(logs: seq<TeamLog>)
    ensures DeltaSum(logs) == Sum(Deltas(logs))
  {
    if |logs| > 0 {
      assert Deltas(logs)[1..] == Deltas(logs[1..]);
      DeltaSumIsSum(logs[1..]);
    }
  }

  lemma {:induction false} DeltaSumSplit(logs: seq<TeamLog>, a: nat)
    requires a <= |logs|
    ensures DeltaSum(logs) == DeltaSum(logs[..a]) + DeltaSum(logs[a..])
  {
    if a == 0 {
      assert logs[..0] == [] && logs[0..] == logs;
    } else {
      DeltaSumSplit(logs[1..], a - 1);
      assert logs[1..][..a - 1] == logs[..a][1..];
      assert logs[1..][a - 1..] == logs[a..];
    }
  }

  lemma DeltaSumStep(logs: seq<TeamLog>, i: nat)
    requires i < |logs|
    ensures DeltaSum(logs[..i + 1]) == DeltaSum(logs[..i]) + logs[i].creditsUsed
  {
    var p := logs[..i + 1];
    assert p[..i] == logs[..i];
    DeltaSumSplit(p, i);
    assert p[i..] == [logs[i]];
    assert DeltaSum([logs[i]]) == logs[i].creditsUsed + DeltaSum([]);
  }

  /** The reference reconstruction: walking back from balance `start`, the
      entry k positions older than the newest one ends at `start` plus what
      the k newer entries consumed. */
  function Annotate(start: int, logs: seq<TeamLog>): (r: seq<Annotated>)
    ensures |r| == |logs|
  {
    seq(|logs|, k requires 0 <= k < |logs| =>
      Annotated(logs[k], start + DeltaSum(logs[..k + 1]), start + DeltaSum(logs[..k])))
  }

  /** The newest entry ends at the starting balance. */
  lemma AnnotateFirst(start: int, logs: seq<TeamLog>)
    requires |logs| > 0
    ensures Annotate(start, logs)[0].after == start
  {
    assert logs[..0] == [];
  }

  /** Each entry's balance drops by exactly what that entry consumed. */
  lemma AnnotateDelta(start: int, logs: seq<TeamLog>, k: nat)
    requires k < |logs|
    ensures var r := Annotate(start, logs);
      r[k].log == logs[k] && r[k].before - r[k].after == logs[k].creditsUsed
  {
    DeltaSumStep(logs, k);
  }

  /** Adjacent entries chain: an older entry ends where the next newer one
      begins. */
  lemma AnnotateChain(start: int, logs: seq<TeamLog>, k: nat)
    requires k + 1 < |logs|
    ensures Annotate(start, logs)[k + 1].after == Annotate(start, logs)[k].before
  {
  }

  /** A window of the whole reconstruction is the reconstruction of the
      window, started from the balance after the newer entries. */
  lemma AnnotateSlice(start: int, logs: seq<TeamLog>, lo: nat, hi: nat)
    requires lo <= hi <= |logs|
    ensures Annotate(start + DeltaSum(logs[..lo]), logs[lo..hi]) == Annotate(start, logs)[lo..hi]
  {
    var a := Annotate(start + DeltaSum(logs[..lo]), logs[lo..hi]);
    var b := Annotate(start, logs)[lo..hi];
    forall k | 0 <= k < hi - lo
      ensures a[k] == b[k]
    {
      AnnotateSliceAt(start, logs, lo, hi, k);
    }
  }

  /** One entry of the window. */
  lemma AnnotateSliceAt(start: int, logs: seq<TeamLog>, lo: nat, hi: nat, k: nat)
    requires lo <= hi <= |logs| && k < hi - lo
    ensures Annotate(start + DeltaSum(logs[..lo]), logs[lo..hi])[k] == Annotate(start, logs)[lo + k]
  {
    var i := lo + k;
    WindowEntry(start, logs, lo, hi, k, i);
    AnnotateAt(start, logs, i, i + 1);
  }

  /** Entry `k` of a window walked from the balance the older entries
      leave, written with prefix sums of the whole listing. */
  lemma WindowEntry(start: int, logs: seq<TeamLog>, lo: nat, hi: nat, k: nat, i: nat)
    requires lo <= hi <= |logs| && k < hi - lo && i == lo + k
    ensures Annotate(start + DeltaSum(logs[..lo]), logs[lo..hi])[k]
      == Annotated(logs[i], start + DeltaSum(logs[..i + 1]), start + DeltaSum(logs[..i]))
  {
    var w := logs[lo..hi];
    AnnotateAt(start + DeltaSum(logs[..lo]), w, k, k + 1);
    PrefixOfWindow(logs, lo, hi, k, i);
    PrefixOfWindow(logs, lo, hi, k + 1, i + 1);
    WindowIndex(logs, lo, hi, k, i);
  }

  lemma WindowIndex(logs: seq<TeamLog>, lo: nat, hi: nat, k: nat, i: nat)
    requires lo <= hi <= |logs| && k < hi - lo && i == lo + k
    ensures logs[lo..hi][k] == logs[i]
  {
  }

  lemma AnnotateAt(start: int, logs: seq<TeamLog>, k: nat, k1: nat)
    requires k < |logs| && k1 == k + 1
    ensures Annotate(start, logs)[k]
      == Annotated(logs[k], start + DeltaSum(logs[..k1]), start + DeltaSum(logs[..k]))
  {
  }

  /** Credits before a window plus credits in its first `k` entries. */
  lemma PrefixOfWindow(logs: seq<TeamLog>, lo: nat, hi: nat, k: nat, i: nat)
    requires lo <= hi <= |logs| && k <= hi - lo && i == lo + k
    ensures DeltaSum(logs[..lo]) + DeltaSum(logs[lo..hi][..k]) == DeltaSum(logs[..i])
  {
    var p := logs[..i];
    DeltaSumSplit(p, lo);
    assert p[..lo] == logs[..lo];
    assert p[lo..] == logs[lo..hi][..k];
  }

  // ---------------------------------------------------------------------
  // Pagination
  // ---------------------------------------------------------------------

  function MinNat(a: nat, b: nat): nat { if a <= b then a else b }

  /** First position of page `page` (1-based), clamped to the listing. */
  function PageStart(n: nat, page: nat, limit: nat): nat
    requires page >= 1
  {
    MinNat((page - 1) * limit, n)
  }

  function PageEnd(n: nat, page: nat, limit: nat): nat
    requires page >= 1
  {
    MinNat(page * limit, n)
  }

  /** Page `page` as the route computes it: the window of the listing,
      walked from the current balance plus the sum over the
      `(page - 1) * limit` newest entries. */
  function PageOf(current: int, logs: seq<TeamLog>, page: nat, limit: nat): (r: seq<Annotated>)
    requires page >= 1
    ensures |r| <= limit
  {
    var lo := PageStart(|logs|, page, limit);
    var hi := PageEnd(|logs|, page, limit);
    Annotate(current + DeltaSum(logs[..lo]), logs[lo..hi])
  }

  /** A page is the slice `[(page-1)*limit, page*limit)` of the
      reconstruction of the whole listing, so its first entry ends at the
      current balance plus what the newer pages consumed. */
  lemma PageIsSlice(current: int, logs: seq<TeamLog>, page: nat, limit: nat)
    requires page >= 1
    ensures var lo := PageStart(|logs|, page, limit);
      var hi := PageEnd(|logs|, page, limit);
      PageOf(current, logs, page, limit) == Annotate(current, logs)[lo..hi]
  {
    AnnotateSlice(current, logs, PageStart(|logs|, page, limit), PageEnd(|logs|, page, limit));
  }

  /** Pages 1..n read one after the other. */
  function Pages(current: int, logs: seq<TeamLog>, n: nat, limit: nat): seq<Annotated>
  {
    if n == 0 then [] else Pages(current, logs, n - 1, limit) + PageOf(current, logs, n, limit)
  }

  /** Reading pages 1..n one after the other gives the reconstruction of the
      first n*limit entries as a single walk: the pages join seamlessly. */
  lemma {:induction false} PagesJoin(current: int, logs: seq<TeamLog>, n: nat, limit: nat)
    ensures Pages(current, logs, n, limit) == Annotate(current, logs)[..MinNat(n * limit, |logs|)]
  {
    if n > 0 {
      PagesJoin(current, logs, n - 1, limit);
      PageIsSlice(current, logs, n, limit);
      var lo := PageStart(|logs|, n, limit);
      var hi := PageEnd(|logs|, n, limit);
      PageBoundsOrdered(|logs|, n, limit);
      SliceJoin(Annotate(current, logs), lo, hi);
    }
  }

  lemma PageBoundsOrdered(len: nat, page: nat, limit: nat)
    requires page >= 1
    ensures PageStart(len, page, limit) <= PageEnd(len, page, limit) <= len
  {
    assert (page - 1) * limit <= page * limit;
  }

  lemma SliceJoin(s: seq<Annotated>, lo: nat, hi: nat)
    requires lo <= hi <= |s|
    ensures s[..lo] + s[lo..hi] == s[..hi]
  {
  }

  /** `Math.ceil(totalCount / limit)`. */
  function CeilDiv(n: nat, d: nat): (r: nat)
    requires d > 0
    ensures (r - 1) * d < n <= r * d || (n == 0 && r == 0)
  {
    (n + d - 1) / d
  }

  // ---------------------------------------------------------------------
  // The handler
  // ---------------------------------------------------------------------

  /** The backwards walk over one page: a running `afterBalance` that each
      step raises by the entry's consumption. */
  method Walk(start: int, page: seq<TeamLog>) returns (r: seq<Annotated>)
    ensures r == Annotate(start, page)
  {
    var afterBalance := start;
    r := [];
    var i := 0;
    while i < |page|
      invariant 0 <= i <= |page|
      invariant afterBalance == start + DeltaSum(page[..i])
      invariant r == Annotate(start, page)[..i]
    {
      var beforeBalance := afterBalance + page[i].creditsUsed;
      DeltaSumStep(page, i);
      r := r + [Annotated(page[i], beforeBalance, afterBalance)];
      afterBalance := beforeBalance;
      i := i + 1;
    }
  }

  datatype LogsResponse =
    | MissingTeamId                 // 400
    | TeamNotFound                  // 404
    | StoreError                    // 500: the ObjectId cast or the store throws
    | Page(entries: seq<Annotated>, page: int, limit: int, totalCount: nat,
           totalPages: ExtInt, currentCredits: int)

  /** `$or: [{ _id: teamId }, { uid: teamId }]`. */
  predicate KeyedBy(key: string, t: TeamDoc)
  {
    t.id == key || t.uid == key
  }

  function FindByIdOrUid(docs: seq<TeamDoc>, key: string): (r: Option<nat>)
    ensures r.Some? ==> r.value < |docs| && KeyedBy(key, docs[r.value])
    ensures r.None? ==> forall j :: 0 <= j < |docs| ==> !KeyedBy(key, docs[j])
  {
    FirstIndex(docs, t => KeyedBy(key, t))
  }

  /** `team_uid: { $in: [team.uid, String(team._id)] }`. */
  predicate Owns(t: TeamDoc, log: TeamLog)
  {
    log.teamUid == t.uid || log.teamUid == t.id
  }

  /** The team's logs in the store's newest-first order. */
  function LogsOf(t: TeamDoc, store: seq<TeamLog>): (r: seq<TeamLog>)
    ensures |r| <= |store|
    ensures forall x :: x in r <==> x in store && Owns(t, x)
  {
    if |store| == 0 then []
    else if Owns(t, store[0]) then [store[0]] + LogsOf(t, store[1..])
    else LogsOf(t, store[1..])
  }

  /** `parseInt(param || fallback)` (no radix); an absent parameter is "". */
  function ParamOr(param: string, fallback: string): Option<int>
  {
    ParseIntAuto(if param != "" then param else fallback)
  }

  /** The page and limit values the store runs with: `skip((page - 1) *
      limit)` must not be negative and, beyond page 1, the `$limit` of the
      newer-logs sum must be positive. */
  predicate Accepted(page: int, limit: int)
  {
    (limit > 0 && page >= 1) || (limit <= 0 && page <= 1)
  }

  /** The logs a non-positive `limit` returns: `skip((page - 1) * limit)`
      then, for a negative limit, a single batch of `-limit` logs, and for a
      zero limit every remaining log. */
  function BatchStart(n: nat, page: int, limit: int): nat
    requires limit <= 0 && page <= 1
  {
    MinNat((page - 1) * limit, n)
  }

  function BatchEnd(n: nat, page: int, limit: int): (r: nat)
    requires limit <= 0 && page <= 1
    ensures BatchStart(n, page, limit) <= r <= n
  {
    if limit == 0 then n else MinNat(BatchStart(n, page, limit) + -limit, n)
  }

  /** `Math.ceil(totalCount / limit)`; a zero limit gives `Inf`. */
  function TotalPages(n: nat, limit: int): (r: ExtInt)
    ensures limit > 0 ==> r == Fin(CeilDiv(n, limit))
    ensures limit == 0 <==> r.Inf?
    ensures limit < 0 ==> r.Fin? && (r.n - 1) * -limit < -(n as int) <= r.n * -limit
  {
    if limit > 0 then Fin(CeilDiv(n, limit))
    else if limit == 0 then Inf
    else Fin(-(n / -limit))
  }

  /** The first page under a negative limit `-m` holds the newest `m` logs,
      annotated exactly as the unlimited listing annotates them. */
  lemma NegativeLimitFirstPage(current: int, logs: seq<TeamLog>, limit: int)
    requires limit < 0
    ensures var hi := BatchEnd(|logs|, 1, limit);
      hi == MinNat(-limit, |logs|) &&
      Annotate(current, logs[BatchStart(|logs|, 1, limit)..hi]) == Annotate(current, logs)[..hi]
  {
    var hi := BatchEnd(|logs|, 1, limit);
    assert BatchStart(|logs|, 1, limit) == 0;
    AnnotateSlice(current, logs, 0, hi);
    assert logs[..0] == [];
  }

  /** GET, with `store` holding every log in newest-first order. The team
      key goes through the `ObjectId` cast first: a key that is not 24 hex
      digits makes the query throw. Page and limit values the store refuses
      (`Accepted`) and non-numeric ones are server errors. A positive limit
      gives page `page` of the listing; a zero or negative limit on page 1
      or below gives the batch that `skip` and `limit` select, walked from
      the current balance, since the newer-logs sum only runs beyond
      page 1. */
  method Get(teams: seq<TeamDoc>, store: seq<TeamLog>, teamId: string, pageParam: string, limitParam: string)
    returns (resp: LogsResponse)
    ensures teamId == "" <==> resp == MissingTeamId
    ensures teamId != "" && !Hex24(teamId) ==> resp == StoreError
    ensures resp == TeamNotFound <==> Hex24(teamId) && FindByIdOrUid(teams, teamId).None?
    ensures resp.Page? <==>
      Hex24(teamId) && FindByIdOrUid(teams, teamId).Some? &&
      ParamOr(pageParam, "1").Some? && ParamOr(limitParam, "50").Some? &&
      Accepted(ParamOr(pageParam, "1").value, ParamOr(limitParam, "50").value)
    ensures resp.Page? ==>
      var t := teams[FindByIdOrUid(teams, teamId).value];
      var logs := LogsOf(t, store);
      resp.page == ParamOr(pageParam, "1").value && resp.limit == ParamOr(limitParam, "50").value &&
      resp.totalCount == |logs| && resp.currentCredits == Available(t) &&
      resp.totalPages == TotalPages(|logs|, resp.limit) &&
      (resp.limit > 0 ==>
        resp.entries == PageOf(Available(t), logs, resp.page, resp.limit) &&
        resp.entries == Annotate(Available(t), logs)[PageStart(|logs|, resp.page, resp.limit)..PageEnd(|logs|, resp.page, resp.limit)]) &&
      (resp.limit <= 0 ==>
        resp.entries == Annotate(Available(t), logs[BatchStart(|logs|, resp.page, resp.limit)..BatchEnd(|logs|, resp.page, resp.limit)]))
  {
    var page := ParamOr(pageParam, "1");
    var limit := ParamOr(limitParam, "50");
    if teamId == "" {
      return MissingTeamId;
    }
    if !Hex24(teamId) {
      return StoreError;
    }
    var found := FindByIdOrUid(teams, teamId);
    if found.None? {
      return TeamNotFound;
    }
    var team := teams[found.value];
    var logs := LogsOf(team, store);
    if page.None? || limit.None? || !Accepted(page.value, limit.value) {
      return StoreError;
    }
    var p := page.value;
    var l := limit.value;
    var entries;
    if l > 0 {
      entries := BuildPage(Available(team), logs, p, l);
    } else {
      entries := Walk(Available(team), logs[BatchStart(|logs|, p, l)..BatchEnd(|logs|, p, l)]);
    }
    resp := Page(entries, p, l, |logs|, TotalPages(|logs|, l), Available(team));
  }

  /** A stored team's key as the route is called with it: its `uid` is a
      UUID, 36 characters long, so the `ObjectId` cast refuses it and the
      request fails, though the `$or` is written to find the team by it. */
  lemma UidLookupRefused(teams: seq<TeamDoc>, i: nat)
    requires i < |teams| && |teams[i].uid| == 36
    ensures !Hex24(teams[i].uid)
    ensures FindByIdOrUid(teams, teams[i].uid).Some?
  {
    assert KeyedBy(teams[i].uid, teams[i]);
  }

  /** The lookup the `$or` intends: the first team whose id or uid is the
      key, so a team is found by its uid unless an earlier team carries the
      key. */
  lemma FindsByUid(teams: seq<TeamDoc>, i: nat)
    requires i < |teams|
    requires forall j :: 0 <= j < i ==> !KeyedBy(teams[i].uid, teams[j])
    ensures FindByIdOrUid(teams, teams[i].uid) == Some(i)
  {
    assert KeyedBy(teams[i].uid, teams[i]);
  }

  /** The window and the walk for a positive limit: skip `(page - 1) *
      limit` logs, start from the current balance plus their consumption,
      walk at most `limit` logs. */
  method BuildPage(current: int, logs: seq<TeamLog>, page: nat, limit: nat) returns (entries: seq<Annotated>)
    requires page >= 1 && limit > 0
    ensures entries == PageOf(current, logs, page, limit)
    ensures entries == Annotate(current, logs)[PageStart(|logs|, page, limit)..PageEnd(|logs|, page, limit)]
  {
    var lo := PageStart(|logs|, page, limit);
    var hi := PageEnd(|logs|, page, limit);
    var cumulative := if page > 1 then DeltaSum(logs[..lo]) else 0;
    assert page == 1 ==> logs[..lo] == [];
    entries := Walk(current + cumulative, logs[lo..hi]);
    PageIsSlice(current, logs, page, limit);
  }
}

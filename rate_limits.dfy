/**
  The three rate-limit write routes over the `teams` collection:
  POST /api/rate-limits/update sets one `api_limits` key, POST
  /api/rate-limits/bulk-update sets many keys to one limit, and POST
  /api/rate-limits/update-followers-limits sets the two company-followers
  limits. Each validates its body and finds the team before any write, and
  each write stamps `updated_at` (the `updatedAt` field of `TeamDoc`).

  Each request is atomic over one snapshot of the collection.
*/
module RateLimits {
  import opened Common
  import opened Models

  datatype Failure =
    | MissingFields      // 400 'Team ID, API name, and limit are required' and the like
    | NoLimitGiven       // 400 'At least one limit must be provided'
    | BadLimit           // 400 'Limit must be a non-negative number'
    | BadDailyLimit      // 400 'Daily limit must be a non-negative number'
    | BadMaxLimit        // 400 'Maximum limit must be a non-negative number'
    | InvalidTeamId      // 400 'Invalid team ID format'
    | TeamNotFound       // 404 'Team not found'

  /** A success carries the re-read team and the response message. */
  datatype Response = Failed(failure: Failure) | Updated(team: TeamDoc, message: string)

  function StatusCode(r: Response): (code: int)
    ensures code == 200 <==> r.Updated?
    ensures code == 404 <==> r == Failed(TeamNotFound)
  {
    match r
    case Updated(_, _) => 200
    case Failed(TeamNotFound) => 404
    case Failed(_) => 400
  }

  /** The response and the collection afterwards. */
  datatype Outcome = Outcome(response: Response, docs: seq<TeamDoc>)

  /** Every stored `api_limits` is a JavaScript object: its keys are distinct. */
  predicate WellFormed(docs: seq<TeamDoc>)
  {
    forall i :: 0 <= i < |docs| && docs[i].apiLimits.Some? ==> UniqueKeys(docs[i].apiLimits.value)
  }

  /** `api_limits` as `$set` sees it: a missing object is created empty. */
  function LimitsOf(t: TeamDoc): (r: seq<ApiLimit>)
    ensures t.apiLimits.None? ==> r == []
  {
    if t.apiLimits.Some? then t.apiLimits.value else []
  }

  // ---------------------------------------------------------------------
  // Setting many keys: the `api_limits.<key>` fields of one `$set`
  // ---------------------------------------------------------------------

  /** The limits after setting each of `keys`, in order, to `v`. */
  function SetAll(entries: seq<ApiLimit>, keys: seq<string>, v: JsValue): (r: seq<ApiLimit>)
    requires UniqueKeys(entries)
    ensures UniqueKeys(r)
    decreases |keys|
  {
    if |keys| == 0 then entries
    else SetLimit(SetAll(entries, keys[..|keys| - 1], v), keys[|keys| - 1], v)
  }

  /** Every listed key ends up holding `v`, however often it is listed. */
  lemma {:induction false} SetAllListed(entries: seq<ApiLimit>, keys: seq<string>, v: JsValue, k: string)
    requires UniqueKeys(entries) && k in keys
    ensures Lookup(SetAll(entries, keys, v), k) == Some(v)
    decreases |keys|
  {
    var init := keys[..|keys| - 1];
    var last := keys[|keys| - 1];
    if k != last {
      assert k in init by {
        var j :| 0 <= j < |keys| && keys[j] == k;
        assert init[j] == k;
      }
      SetAllListed(entries, init, v, k);
      SetLimitOthers(SetAll(entries, init, v), last, v, k);
    }
  }

  /** A key that is not listed keeps its value, or stays absent. */
  lemma {:induction false} SetAllOthers(entries: seq<ApiLimit>, keys: seq<string>, v: JsValue, k: string)
    requires UniqueKeys(entries) && k !in keys
    ensures Lookup(SetAll(entries, keys, v), k) == Lookup(entries, k)
    decreases |keys|
  {
    if |keys| > 0 {
      var init := keys[..|keys| - 1];
      assert k !in init by {
        forall j | 0 <= j < |init| ensures init[j] != k { assert init[j] == keys[j]; }
      }
      SetAllOthers(entries, init, v, k);
      SetLimitOthers(SetAll(entries, init, v), keys[|keys| - 1], v, k);
    }
  }

  /** Listing a key twice sets the same limits as listing it once. */
  lemma DuplicateKeyHarmless(entries: seq<ApiLimit>, keys: seq<string>, v: JsValue, k: string)
    requires UniqueKeys(entries) && k in keys
    ensures forall key :: Lookup(SetAll(entries, keys + [k], v), key) == Lookup(SetAll(entries, keys, v), key)
  {
    var once := SetAll(entries, keys, v);
    assert (keys + [k])[..|keys|] == keys;
    SetAllListed(entries, keys, v, k);
    forall key
      ensures Lookup(SetAll(entries, keys + [k], v), key) == Lookup(once, key)
    {
      if key != k {
        SetLimitOthers(once, k, v, key);
      }
    }
  }

  // ---------------------------------------------------------------------
  // POST /api/rate-limits/bulk-update
  // ---------------------------------------------------------------------

  /** `{ teamId, apis, limit }`; `apis` is `None` when it is not an array
      (absent included); an empty `teamId` is a missing one. */
  datatype BulkRequest = BulkRequest(teamId: string, apis: Option<seq<string>>, limit: JsValue)

  function BulkMessage(n: nat, limit: JsValue, teamName: string): string
    requires IsNumber(limit)
  {
    "Successfully updated " + NatToString(n) + " API rate limit" + (if n > 1 then "s" else "")
      + " to " + NumberText(limit) + " for " + teamName
  }

  /** The bulk update as a function of the snapshot. */
  function Bulk(docs: seq<TeamDoc>, req: BulkRequest, now: int): (o: Outcome)
    requires WellFormed(docs)
    ensures o.response.Failed? ==> o.docs == docs
    ensures o.response.Updated? ==> |o.docs| == |docs| && WellFormed(o.docs)
  {
    if req.teamId == "" || req.apis.None? || |req.apis.value| == 0 then Outcome(Failed(MissingFields), docs)
    else if !IsNonNegativeNumber(req.limit) then Outcome(Failed(BadLimit), docs)
    else if !Hex24(req.teamId) then Outcome(Failed(InvalidTeamId), docs)
    else
      match FindTeam(docs, req.teamId)
      case None => Outcome(Failed(TeamNotFound), docs)
      case Some(i) =>
        var t := docs[i];
        var u := t.(apiLimits := Some(SetAll(LimitsOf(t), req.apis.value, req.limit)), updatedAt := Some(now));
        Outcome(Updated(u, BulkMessage(|req.apis.value|, req.limit, t.name)), docs[i := u])
  }

  /** An empty or missing list of apis, or a limit that is missing,
      non-numeric or negative, is refused with 400 before any lookup. */
  lemma BulkRejectsBadBody(docs: seq<TeamDoc>, req: BulkRequest, now: int)
    requires WellFormed(docs)
    requires req.apis.None? || req.apis == Some([]) || !IsNonNegativeNumber(req.limit)
    ensures var o := Bulk(docs, req, now);
      StatusCode(o.response) == 400 && o.docs == docs
  {
  }

  /** A valid body for an unknown team gets 404 and changes nothing. */
  lemma BulkUnknownTeam(docs: seq<TeamDoc>, req: BulkRequest, now: int)
    requires WellFormed(docs) && req.apis.Some? && |req.apis.value| > 0 && IsNonNegativeNumber(req.limit)
    requires Hex24(req.teamId) && forall j :: 0 <= j < |docs| ==> docs[j].id != req.teamId
    ensures Bulk(docs, req, now) == Outcome(Failed(TeamNotFound), docs)
  {
  }

  /** After a success every listed key maps to the limit, every other key
      is as it was, and the only other field changed is `updated_at`. */
  lemma BulkEffect(docs: seq<TeamDoc>, req: BulkRequest, now: int, k: string)
    requires WellFormed(docs) && Bulk(docs, req, now).response.Updated?
    ensures var o := Bulk(docs, req, now);
      var i := FindTeam(docs, req.teamId).value;
      var u := o.docs[i];
      o.docs == docs[i := u] && u == o.response.team &&
      u.(apiLimits := docs[i].apiLimits, updatedAt := docs[i].updatedAt) == docs[i] &&
      u.updatedAt == Some(now) && u.apiLimits.Some? &&
      (k in req.apis.value ==> Lookup(u.apiLimits.value, k) == Some(req.limit)) &&
      (k !in req.apis.value ==> Lookup(u.apiLimits.value, k) == Lookup(LimitsOf(docs[i]), k))
  {
    var i := FindTeam(docs, req.teamId).value;
    if k in req.apis.value {
      SetAllListed(LimitsOf(docs[i]), req.apis.value, req.limit, k);
    } else {
      SetAllOthers(LimitsOf(docs[i]), req.apis.value, req.limit, k);
    }
  }

  /** The handler: a loop builds the fields to set, one per listed api,
      and they are written to the team together. */
  method BulkUpdate(teams: TeamCollection, req: BulkRequest, now: int) returns (resp: Response)
    requires WellFormed(teams.docs)
    modifies teams
    ensures var o := Bulk(old(teams.docs), req, now);
      resp == o.response && teams.docs == o.docs
  {
    if req.teamId == "" || req.apis.None? || |req.apis.value| == 0 {
      return Failed(MissingFields);
    }
    if !IsNonNegativeNumber(req.limit) {
      return Failed(BadLimit);
    }
    if !Hex24(req.teamId) {
      return Failed(InvalidTeamId);
    }
    var found := FindTeam(teams.docs, req.teamId);
    if found.None? {
      return Failed(TeamNotFound);
    }
    var i := found.value;
    var team := teams.docs[i];
    var apis := req.apis.value;
    var limits := LimitsOf(team);
    var n := 0;
    while n < |apis|
      invariant 0 <= n <= |apis|
      invariant UniqueKeys(limits)
      invariant limits == SetAll(LimitsOf(team), apis[..n], req.limit)
    {
      assert apis[..n + 1][..n] == apis[..n];
      limits := SetLimit(limits, apis[n], req.limit);
      n := n + 1;
    }
    assert apis[..n] == apis;
    var updated := team.(apiLimits := Some(limits), updatedAt := Some(now));
    teams.docs := teams.docs[i := updated];
    resp := Updated(updated, BulkMessage(|apis|, req.limit, team.name));
  }

  // ---------------------------------------------------------------------
  // POST /api/rate-limits/update
  // ---------------------------------------------------------------------

  /** `{ teamId, apiName, limit }`; empty strings are missing values. */
  datatype UpdateRequest = UpdateRequest(teamId: string, apiName: string, limit: JsValue)

  /** The single-key update as a function of the snapshot. */
  function One(docs: seq<TeamDoc>, req: UpdateRequest, now: int): (o: Outcome)
    requires WellFormed(docs)
    ensures o.response.Failed? ==> o.docs == docs
    ensures o.response.Updated? ==> |o.docs| == |docs| && WellFormed(o.docs)
  {
    if req.teamId == "" || req.apiName == "" || req.limit.Undefined? then Outcome(Failed(MissingFields), docs)
    else if !IsNonNegativeNumber(req.limit) then Outcome(Failed(BadLimit), docs)
    else if !Hex24(req.teamId) then Outcome(Failed(InvalidTeamId), docs)
    else
      match FindTeam(docs, req.teamId)
      case None => Outcome(Failed(TeamNotFound), docs)
      case Some(i) =>
        var t := docs[i];
        var u := t.(apiLimits := Some(SetLimit(LimitsOf(t), req.apiName, req.limit)), updatedAt := Some(now));
        Outcome(Updated(u, "Successfully updated " + req.apiName + " rate limit to " + NumberText(req.limit)
                          + " for " + t.name), docs[i := u])
  }

  /** Missing fields, and a limit that is not a non-negative number (null
      included), are refused with 400 and nothing is written. */
  lemma OneRejectsBadBody(docs: seq<TeamDoc>, req: UpdateRequest, now: int)
    requires WellFormed(docs)
    requires req.teamId == "" || req.apiName == "" || !IsNonNegativeNumber(req.limit)
    ensures var o := One(docs, req, now);
      StatusCode(o.response) == 400 && o.docs == docs &&
      (req.teamId != "" && req.apiName != "" && !req.limit.Undefined? ==> o.response == Failed(BadLimit))
  {
  }

  /** A valid body for an unknown team gets 404 and changes nothing. */
  lemma OneUnknownTeam(docs: seq<TeamDoc>, req: UpdateRequest, now: int)
    requires WellFormed(docs) && req.apiName != "" && IsNonNegativeNumber(req.limit)
    requires Hex24(req.teamId) && forall j :: 0 <= j < |docs| ==> docs[j].id != req.teamId
    ensures One(docs, req, now) == Outcome(Failed(TeamNotFound), docs)
  {
  }

  /** On success `api_limits[apiName]` holds the limit, every other key is
      unchanged, and `updated_at` is the only other field written. */
  lemma OneEffect(docs: seq<TeamDoc>, req: UpdateRequest, now: int, k: string)
    requires WellFormed(docs) && One(docs, req, now).response.Updated?
    ensures var o := One(docs, req, now);
      var i := FindTeam(docs, req.teamId).value;
      var u := o.docs[i];
      o.docs == docs[i := u] &&
      u.(apiLimits := docs[i].apiLimits, updatedAt := docs[i].updatedAt) == docs[i] &&
      u.updatedAt == Some(now) && u.apiLimits.Some? &&
      Lookup(u.apiLimits.value, req.apiName) == Some(req.limit) &&
      (k != req.apiName ==> Lookup(u.apiLimits.value, k) == Lookup(LimitsOf(docs[i]), k))
  {
    var i := FindTeam(docs, req.teamId).value;
    if k != req.apiName {
      SetLimitOthers(LimitsOf(docs[i]), req.apiName, req.limit, k);
    }
  }

  /** The single update is the bulk update of a one-element list. */
  lemma OneIsBulkOfOne(docs: seq<TeamDoc>, teamId: string, apiName: string, limit: JsValue, now: int)
    requires WellFormed(docs) && teamId != "" && apiName != "" && IsNonNegativeNumber(limit)
    ensures One(docs, UpdateRequest(teamId, apiName, limit), now).docs
         == Bulk(docs, BulkRequest(teamId, Some([apiName]), limit), now).docs
  {
    if Hex24(teamId) && FindTeam(docs, teamId).Some? {
      var t := docs[FindTeam(docs, teamId).value];
      assert [apiName][..0] == [];
      assert SetAll(LimitsOf(t), [apiName], limit) == SetLimit(LimitsOf(t), apiName, limit);
    }
  }

  method Update(teams: TeamCollection, req: UpdateRequest, now: int) returns (resp: Response)
    requires WellFormed(teams.docs)
    modifies teams
    ensures var o := One(old(teams.docs), req, now);
      resp == o.response && teams.docs == o.docs
  {
    if req.teamId == "" || req.apiName == "" || req.limit.Undefined? {
      return Failed(MissingFields);
    }
    if !IsNonNegativeNumber(req.limit) {
      return Failed(BadLimit);
    }
    if !Hex24(req.teamId) {
      return Failed(InvalidTeamId);
    }
    var found := FindTeam(teams.docs, req.teamId);
    if found.None? {
      return Failed(TeamNotFound);
    }
    var i := found.value;
    var team := teams.docs[i];
    var updated := team.(apiLimits := Some(SetLimit(LimitsOf(team), req.apiName, req.limit)), updatedAt := Some(now));
    teams.docs := teams.docs[i := updated];
    resp := Updated(updated, "Successfully updated " + req.apiName + " rate limit to " + NumberText(req.limit)
                             + " for " + team.name);
  }

  // ---------------------------------------------------------------------
  // POST /api/rate-limits/update-followers-limits
  // ---------------------------------------------------------------------

  /** `{ teamId, dailyLimit, maxLimit }`: a limit is skipped only when it
      is `null`; an omitted one is `Undefined` and fails validation. */
  datatype FollowersRequest = FollowersRequest(teamId: string, dailyLimit: JsValue, maxLimit: JsValue)

  /** A limit that is not null must be a non-negative number. */
  predicate AcceptableLimit(v: JsValue)
  {
    v.Null? || IsNonNegativeNumber(v)
  }

  /** The list of what was updated, joined by " and ". */
  function FollowersParts(daily: JsValue, max: JsValue): (parts: seq<string>)
    requires AcceptableLimit(daily) && AcceptableLimit(max)
    ensures |parts| == (if daily.Null? then 0 else 1) + (if max.Null? then 0 else 1)
  {
    (if daily.Null? then [] else ["daily limit to " + NumberText(daily)])
      + (if max.Null? then [] else ["per-request limit to " + NumberText(max)])
  }

  function JoinAnd(parts: seq<string>): string
  {
    if |parts| == 0 then "" else if |parts| == 1 then parts[0] else parts[0] + " and " + JoinAnd(parts[1..])
  }

  function FollowersMessage(daily: JsValue, max: JsValue, teamName: string): string
    requires AcceptableLimit(daily) && AcceptableLimit(max)
  {
    "Successfully updated company followers " + JoinAnd(FollowersParts(daily, max)) + " for " + teamName
  }

  /** The followers update as a function of the snapshot. */
  function Followers(docs: seq<TeamDoc>, req: FollowersRequest, now: int): (o: Outcome)
    ensures o.response.Failed? ==> o.docs == docs
    ensures o.response.Updated? ==> |o.docs| == |docs|
  {
    if req.teamId == "" then Outcome(Failed(MissingFields), docs)
    else if req.dailyLimit.Null? && req.maxLimit.Null? then Outcome(Failed(NoLimitGiven), docs)
    else if !AcceptableLimit(req.dailyLimit) then Outcome(Failed(BadDailyLimit), docs)
    else if !AcceptableLimit(req.maxLimit) then Outcome(Failed(BadMaxLimit), docs)
    else if !Hex24(req.teamId) then Outcome(Failed(InvalidTeamId), docs)
    else
      match FindTeam(docs, req.teamId)
      case None => Outcome(Failed(TeamNotFound), docs)
      case Some(i) =>
        var t := docs[i];
        var u := t.(followersTeamLimit := if req.dailyLimit.Null? then t.followersTeamLimit else req.dailyLimit,
                    followersRequestLimit := if req.maxLimit.Null? then t.followersRequestLimit else req.maxLimit,
                    updatedAt := Some(now));
        Outcome(Updated(u, FollowersMessage(req.dailyLimit, req.maxLimit, t.name)), docs[i := u])
  }

  /** Two null limits are refused with 400, whatever the team. */
  lemma FollowersBothNull(docs: seq<TeamDoc>, teamId: string, now: int)
    requires teamId != ""
    ensures Followers(docs, FollowersRequest(teamId, Null, Null), now) == Outcome(Failed(NoLimitGiven), docs)
  {
  }

  /** An omitted limit is not a null one: it is refused, not skipped. */
  lemma FollowersOmittedRejected(docs: seq<TeamDoc>, teamId: string, daily: JsValue, now: int)
    requires teamId != ""
    ensures var o := Followers(docs, FollowersRequest(teamId, daily, Undefined), now);
      StatusCode(o.response) == 400 && o.docs == docs
  {
  }

  /** A valid body for an unknown team gets 404 and changes nothing. */
  lemma FollowersUnknownTeam(docs: seq<TeamDoc>, req: FollowersRequest, now: int)
    requires AcceptableLimit(req.dailyLimit) && AcceptableLimit(req.maxLimit)
    requires !(req.dailyLimit.Null? && req.maxLimit.Null?)
    requires Hex24(req.teamId) && forall j :: 0 <= j < |docs| ==> docs[j].id != req.teamId
    ensures Followers(docs, req, now) == Outcome(Failed(TeamNotFound), docs)
  {
  }

  /** On success exactly the non-null limits and `updated_at` are written;
      a success implies each given limit was a non-negative number. */
  lemma FollowersEffect(docs: seq<TeamDoc>, req: FollowersRequest, now: int)
    requires Followers(docs, req, now).response.Updated?
    ensures var o := Followers(docs, req, now);
      var i := FindTeam(docs, req.teamId).value;
      var t := docs[i];
      var u := o.docs[i];
      o.docs == docs[i := u] &&
      u.(followersTeamLimit := t.followersTeamLimit, followersRequestLimit := t.followersRequestLimit,
         updatedAt := t.updatedAt) == t &&
      u.updatedAt == Some(now) &&
      (req.dailyLimit.Null? ==> u.followersTeamLimit == t.followersTeamLimit) &&
      (!req.dailyLimit.Null? ==> IsNonNegativeNumber(req.dailyLimit) && u.followersTeamLimit == req.dailyLimit) &&
      (req.maxLimit.Null? ==> u.followersRequestLimit == t.followersRequestLimit) &&
      (!req.maxLimit.Null? ==> IsNonNegativeNumber(req.maxLimit) && u.followersRequestLimit == req.maxLimit)
  {
    assert req.teamId != "" && AcceptableLimit(req.dailyLimit) && AcceptableLimit(req.maxLimit);
    var i := FindTeam(docs, req.teamId).value;
    var t := docs[i];
    var u := t.(followersTeamLimit := if req.dailyLimit.Null? then t.followersTeamLimit else req.dailyLimit,
                followersRequestLimit := if req.maxLimit.Null? then t.followersRequestLimit else req.maxLimit,
                updatedAt := Some(now));
    assert Followers(docs, req, now).docs == docs[i := u];
  }

  lemma JoinTwo(a: string, b: string)
    ensures JoinAnd([a, b]) == a + " and " + b
  {
    assert [a, b][1..] == [b];
  }

  /** With both limits given the message names the daily limit first and
      the per-request limit second, joined by " and ". */
  lemma FollowersMessageOrder(daily: int, max: int, teamName: string)
    requires daily >= 0 && max >= 0
    ensures var a := "daily limit to " + IntToString(daily);
      var b := "per-request limit to " + IntToString(max);
      FollowersMessage(Num(daily), Num(max), teamName)
        == "Successfully updated company followers " + (a + " and " + b) + " for " + teamName
  {
    var a := "daily limit to " + IntToString(daily);
    var b := "per-request limit to " + IntToString(max);
    assert FollowersParts(Num(daily), Num(max)) == [a, b];
    JoinTwo(a, b);
  }

  /** The handler: the fields to set are collected one condition at a
      time, then written together. */
  method UpdateFollowers(teams: TeamCollection, req: FollowersRequest, now: int) returns (resp: Response)
    modifies teams
    ensures var o := Followers(old(teams.docs), req, now);
      resp == o.response && teams.docs == o.docs
  {
    if req.teamId == "" {
      return Failed(MissingFields);
    }
    if req.dailyLimit.Null? && req.maxLimit.Null? {
      return Failed(NoLimitGiven);
    }
    if !req.dailyLimit.Null? && !IsNonNegativeNumber(req.dailyLimit) {
      return Failed(BadDailyLimit);
    }
    if !req.maxLimit.Null? && !IsNonNegativeNumber(req.maxLimit) {
      return Failed(BadMaxLimit);
    }
    if !Hex24(req.teamId) {
      return Failed(InvalidTeamId);
    }
    var found := FindTeam(teams.docs, req.teamId);
    if found.None? {
      return Failed(TeamNotFound);
    }
    var i := found.value;
    var team := teams.docs[i];
    var updated := team.(updatedAt := Some(now));
    if !req.dailyLimit.Null? {
      updated := updated.(followersTeamLimit := req.dailyLimit);
    }
    if !req.maxLimit.Null? {
      updated := updated.(followersRequestLimit := req.maxLimit);
    }
    teams.docs := teams.docs[i := updated];
    resp := Updated(updated, FollowersMessage(req.dailyLimit, req.maxLimit, team.name));
  }
}

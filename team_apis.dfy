/**
  /api/team-apis: which apis a team may call and with what settings. GET
  layers the team's own `team-apis` records over the global `apis`
  catalogue; POST enables, disables or shows/hides one api for a team;
  PATCH changes a team's rate limit or credits per call.
*/
module TeamApis {
  import opened Common
  import opened Models

  /** A document of the global `apis` catalogue. */
  datatype GlobalApi = GlobalApi(id: string, name: string, endpoint: JsValue, rateLimit: JsValue,
    creditsPerCall: JsValue, active: JsValue, dashboardEnabled: JsValue)

  /** A `team-apis` document. `api` is `None` when the field is missing;
      `lastCalledAt` is `None` for `null`. */
  datatype TeamApi = TeamApi(id: string, team: string, api: Option<string>, endpoint: string,
    enabled: JsValue, rateLimit: JsValue, creditsPerCall: JsValue, dashboardEnabled: JsValue,
    cycle: string, callsInCurrentMinute: int, lastCalledAt: Option<int>,
    createdAt: Option<int>, updatedAt: Option<int>)

  // ---------------------------------------------------------------------
  // GET: the merged view
  // ---------------------------------------------------------------------

  /** One element of `apisWithAccess`. */
  datatype ApiAccess = ApiAccess(api: GlobalApi, enabled: bool, teamApiId: Option<string>, endpoint: JsValue,
    rateLimit: JsValue, creditsPerCall: JsValue, dashboardEnabled: bool,
    globalActive: bool, globalDashboardEnabled: bool, willShowOnDashboard: bool)

  /** A record of the team with its `api` field set to `apiId`. */
  predicate RecordFor(apiId: string, ta: TeamApi)
  {
    ta.api == Some(apiId)
  }

  /** The merge of one catalogue api with the team's record for it, if any. */
  function View(g: GlobalApi, teamApi: Option<TeamApi>): (v: ApiAccess)
    ensures v.willShowOnDashboard <==>
      teamApi.Some? && teamApi.value.enabled != Bool(false) && teamApi.value.dashboardEnabled != Bool(false)
    ensures v.enabled <==> teamApi.Some? && teamApi.value.enabled != Bool(false)
    ensures !v.enabled ==> !v.dashboardEnabled
    ensures v.globalActive <==> g.active != Bool(false)
    ensures v.globalDashboardEnabled <==> g.dashboardEnabled != Bool(false)
  {
    var isEnabled := teamApi.Some? && teamApi.value.enabled != Bool(false);
    var teamDashboard := if isEnabled then teamApi.value.dashboardEnabled != Bool(false) else false;
    ApiAccess(g, isEnabled,
      if teamApi.Some? then Some(teamApi.value.id) else None,
      OrElse(if teamApi.Some? then Str(teamApi.value.endpoint) else Undefined, g.endpoint),
      OrElse(OrElse(if teamApi.Some? then teamApi.value.rateLimit else Undefined, g.rateLimit), Num(100)),
      Coalesce(Coalesce(if teamApi.Some? then teamApi.value.creditsPerCall else Undefined, g.creditsPerCall), Num(1)),
      teamDashboard, g.active != Bool(false), g.dashboardEnabled != Bool(false),
      isEnabled && teamDashboard)
  }

  /** The effective rate limit is the team's if truthy, else the catalogue's
      if truthy, else 100: a 0 counts as unset at both levels. */
  lemma RateLimitLayers(g: GlobalApi, teamApi: Option<TeamApi>)
    ensures var r := View(g, teamApi).rateLimit;
      (teamApi.Some? && Truthy(teamApi.value.rateLimit) ==> r == teamApi.value.rateLimit) &&
      ((teamApi.None? || !Truthy(teamApi.value.rateLimit)) && Truthy(g.rateLimit) ==> r == g.rateLimit) &&
      ((teamApi.None? || !Truthy(teamApi.value.rateLimit)) && !Truthy(g.rateLimit) ==> r == Num(100)) &&
      Truthy(r)
  {
  }

  /** The effective credits per call is the team's unless null or missing,
      else the catalogue's likewise, else 1: a 0 is kept. */
  lemma CreditsPerCallLayers(g: GlobalApi, ta: TeamApi)
    ensures ta.creditsPerCall == Num(0) ==> View(g, Some(ta)).creditsPerCall == Num(0)
    ensures Nullish(ta.creditsPerCall) && g.creditsPerCall == Num(0) ==> View(g, Some(ta)).creditsPerCall == Num(0)
    ensures Nullish(ta.creditsPerCall) && Nullish(g.creditsPerCall) ==> View(g, Some(ta)).creditsPerCall == Num(1)
  {
  }

  /** Dashboard visibility depends on the team's record only: the catalogue's
      `active` and `dashboardEnabled` flags never change it. */
  lemma GlobalFlagsIgnored(g: GlobalApi, active: JsValue, dashboard: JsValue, teamApi: Option<TeamApi>)
    ensures View(g.(active := active, dashboardEnabled := dashboard), teamApi).willShowOnDashboard
      == View(g, teamApi).willShowOnDashboard
    ensures View(g.(active := active, dashboardEnabled := dashboard), teamApi).enabled == View(g, teamApi).enabled
  {
  }

  /** The team's records that carry an `api` field. */
  predicate ValidFor(teamId: string, ta: TeamApi)
  {
    ta.team == teamId && ta.api.Some?
  }

  /** `validTeamApis.find(ta => ta.api === api._id)`. */
  function RecordOf(valid: seq<TeamApi>, apiId: string): (r: Option<TeamApi>)
    ensures r.Some? ==> r.value in valid && r.value.api == Some(apiId)
    ensures r.None? ==> forall k :: 0 <= k < |valid| ==> valid[k].api != Some(apiId)
  {
    match FirstIndex(valid, ta => RecordFor(apiId, ta))
    case None => None
    case Some(i) => Some(valid[i])
  }

  datatype ListResponse =
    | MissingTeamId                    // 400
    | InvalidTeamId                    // 500: `new ObjectId(teamId)` throws
    | Listed(apis: seq<ApiAccess>)

  /** GET over the `team-apis` table and the catalogue (in the store's name
      order). */
  function Get(rows: seq<TeamApi>, catalogue: seq<GlobalApi>, teamId: string): (r: ListResponse)
    ensures teamId == "" <==> r == MissingTeamId
    ensures r == InvalidTeamId <==> teamId != "" && !Hex24(teamId)
    ensures r.Listed? ==> (|r.apis| == |catalogue| &&
      forall k :: 0 <= k < |catalogue| ==> r.apis[k].api == catalogue[k])
  {
    if teamId == "" then MissingTeamId
    else if !Hex24(teamId) then InvalidTeamId
    else
      var valid := Filter(rows, ta => ValidFor(teamId, ta));
      Listed(seq(|catalogue|, k requires 0 <= k < |catalogue| => View(catalogue[k], RecordOf(valid, catalogue[k].id))))
  }

  /** An api shows on the team's dashboard exactly when the team has a record
      for it (the first one counts) whose `enabled` and `dashboardEnabled`
      are not `false`. */
  lemma WillShowExactly(rows: seq<TeamApi>, catalogue: seq<GlobalApi>, teamId: string, k: nat)
    requires Hex24(teamId) && k < |catalogue|
    ensures var v := Get(rows, catalogue, teamId).apis[k];
      var rec := RecordOf(Filter(rows, ta => ValidFor(teamId, ta)), catalogue[k].id);
      (v.willShowOnDashboard <==> rec.Some? && rec.value.enabled != Bool(false) && rec.value.dashboardEnabled != Bool(false)) &&
      (rec.Some? ==> rec.value in rows && rec.value.team == teamId && rec.value.api == Some(catalogue[k].id))
  {
  }

  // ---------------------------------------------------------------------
  // POST: enable, disable, show or hide
  // ---------------------------------------------------------------------

  /** A POST body; an absent string field is "" and an absent flag or
      number `Undefined`. */
  datatype PostRequest = PostRequest(teamId: string, apiId: string, endpoint: string, enabled: JsValue,
    rateLimit: JsValue, creditsPerCall: JsValue, dashboardEnabled: JsValue)

  datatype PostResponse =
    | PostMissingFields        // 400
    | NothingToChange          // 400
    | AccessNotFound           // 404
    | InvalidObjectId          // 500: `new ObjectId` throws
    | ApiEnabled
    | ApiDisabled
    | VisibilityChanged(shown: bool)

  /** The record a `{ team, endpoint }` filter selects. */
  predicate Keyed(teamId: string, endpoint: string, ta: TeamApi)
  {
    ta.team == teamId && ta.endpoint == endpoint
  }

  function FindRecord(rows: seq<TeamApi>, teamId: string, endpoint: string): (r: Option<nat>)
    ensures r.Some? ==> r.value < |rows| && Keyed(teamId, endpoint, rows[r.value])
    ensures r.Some? ==> forall j :: 0 <= j < r.value ==> !Keyed(teamId, endpoint, rows[j])
    ensures r.None? ==> forall j :: 0 <= j < |rows| ==> !Keyed(teamId, endpoint, rows[j])
  {
    FirstIndex(rows, ta => Keyed(teamId, endpoint, ta))
  }

  /** The document inserted when a team first gets an api. */
  function NewRecord(req: PostRequest, newId: string, now: int): TeamApi
  {
    TeamApi(newId, req.teamId, Some(req.apiId), req.endpoint, Bool(true),
      OrElse(req.rateLimit, Num(100)), OrElse(req.creditsPerCall, Num(1)), OrElse(req.dashboardEnabled, Bool(false)),
      "min", 0, None, Some(now), Some(now))
  }

  datatype PostOutcome = PostOutcome(response: PostResponse, rows: seq<TeamApi>)

  /** POST over the table. `newId` is the id the store gives an inserted
      document and `now` the clock. */
  function HandlePost(rows: seq<TeamApi>, req: PostRequest, newId: string, now: int): (o: PostOutcome)
    ensures o.response == PostMissingFields <==> req.teamId == "" || req.apiId == "" || req.endpoint == ""
    ensures o.response == NothingToChange <==>
      req.teamId != "" && req.apiId != "" && req.endpoint != "" && req.enabled.Undefined? && req.dashboardEnabled.Undefined?
    ensures o.response.ApiEnabled? || o.response.ApiDisabled? ==> !req.enabled.Undefined?
    ensures o.response.VisibilityChanged? ==> req.enabled.Undefined? && o.response.shown == Truthy(req.dashboardEnabled)
    ensures !(o.response.ApiEnabled? || o.response.ApiDisabled? || o.response.VisibilityChanged?) ==> o.rows == rows
    ensures |rows| <= |o.rows| <= |rows| + 1
  {
    if req.teamId == "" || req.apiId == "" || req.endpoint == "" then PostOutcome(PostMissingFields, rows)
    else if !req.enabled.Undefined? then
      if !Hex24(req.teamId) then PostOutcome(InvalidObjectId, rows)
      else
        var found := FindRecord(rows, req.teamId, req.endpoint);
        if Truthy(req.enabled) then
          if found.Some? then
            var i := found.value;
            var updated := rows[i].(enabled := Bool(true), rateLimit := OrElse(req.rateLimit, Num(100)),
              creditsPerCall := OrElse(req.creditsPerCall, Num(1)), updatedAt := Some(now));
            PostOutcome(ApiEnabled, rows[i := updated])
          else if !Hex24(req.apiId) then PostOutcome(InvalidObjectId, rows)
          else PostOutcome(ApiEnabled, rows + [NewRecord(req, newId, now)])
        else if found.Some? then
          var i := found.value;
          PostOutcome(ApiDisabled, rows[i := rows[i].(enabled := Bool(false), updatedAt := Some(now))])
        else PostOutcome(ApiDisabled, rows)
    else if !req.dashboardEnabled.Undefined? then
      if !Hex24(req.teamId) then PostOutcome(InvalidObjectId, rows)
      else
        var found := FindRecord(rows, req.teamId, req.endpoint);
        if found.None? then PostOutcome(AccessNotFound, rows)
        else
          var i := found.value;
          PostOutcome(VisibilityChanged(Truthy(req.dashboardEnabled)),
            rows[i := rows[i].(dashboardEnabled := req.dashboardEnabled, updatedAt := Some(now))])
    else PostOutcome(NothingToChange, rows)
  }

  /** After enabling, the team's record for the endpoint is enabled, with a
      truthy rate limit and credits per call (0 becomes 100 and 1); a new
      record keeps `dashboardEnabled` only when it was truthy, and nothing
      else in the table changes. */
  lemma EnableEffect(rows: seq<TeamApi>, req: PostRequest, newId: string, now: int)
    requires HandlePost(rows, req, newId, now).response == ApiEnabled
    ensures var o := HandlePost(rows, req, newId, now);
      var j := FindRecord(o.rows, req.teamId, req.endpoint);
      j.Some? && o.rows[j.value].enabled == Bool(true) &&
      o.rows[j.value].rateLimit == OrElse(req.rateLimit, Num(100)) && Truthy(o.rows[j.value].rateLimit) &&
      o.rows[j.value].creditsPerCall == OrElse(req.creditsPerCall, Num(1)) && Truthy(o.rows[j.value].creditsPerCall) &&
      o.rows[j.value].updatedAt == Some(now) &&
      (forall k :: 0 <= k < |rows| && k != j.value ==> o.rows[k] == rows[k]) &&
      (j.value < |rows| ==> (|o.rows| == |rows| &&
        o.rows[j.value].(enabled := rows[j.value].enabled, rateLimit := rows[j.value].rateLimit,
          creditsPerCall := rows[j.value].creditsPerCall, updatedAt := rows[j.value].updatedAt) == rows[j.value])) &&
      (j.value == |rows| ==> (o.rows[j.value].dashboardEnabled == OrElse(req.dashboardEnabled, Bool(false)) &&
        o.rows[j.value].api == Some(req.apiId) && o.rows[j.value].id == newId &&
        o.rows[j.value].team == req.teamId && o.rows[j.value].endpoint == req.endpoint &&
        o.rows[j.value].cycle == "min" && o.rows[j.value].callsInCurrentMinute == 0 &&
        o.rows[j.value].lastCalledAt == None && o.rows[j.value].createdAt == Some(now)))
  {
    var o := HandlePost(rows, req, newId, now);
    var found := FindRecord(rows, req.teamId, req.endpoint);
    if found.Some? {
      var i := found.value;
      assert FindRecord(o.rows, req.teamId, req.endpoint) == Some(i) by {
        FirstIndexUpdate(rows, i, o.rows[i], ta => Keyed(req.teamId, req.endpoint, ta));
      }
    } else {
      FirstIndexAppend(rows, NewRecord(req, newId, now), ta => Keyed(req.teamId, req.endpoint, ta));
    }
  }

  /** Disabling reports success whether or not a record matches; it turns
      off only the matching record, or changes nothing. */
  lemma DisableEffect(rows: seq<TeamApi>, req: PostRequest, newId: string, now: int)
    requires req.teamId != "" && req.apiId != "" && req.endpoint != "" && Hex24(req.teamId)
    requires !req.enabled.Undefined? && !Truthy(req.enabled)
    ensures var o := HandlePost(rows, req, newId, now);
      var f := FindRecord(rows, req.teamId, req.endpoint);
      o.response == ApiDisabled && |o.rows| == |rows| &&
      (f.None? ==> o.rows == rows) &&
      (f.Some? ==> (o.rows[f.value].enabled == Bool(false) && o.rows[f.value].updatedAt == Some(now) &&
        o.rows[f.value].(enabled := rows[f.value].enabled, updatedAt := rows[f.value].updatedAt) == rows[f.value] &&
        forall k :: 0 <= k < |rows| && k != f.value ==> o.rows[k] == rows[k]))
  {
  }

  /** `enabled` takes precedence: whenever it is given, no existing record's
      `dashboardEnabled` changes. A visibility change needs a matching record
      and touches only its `dashboardEnabled` and `updatedAt`. */
  lemma VisibilityRules(rows: seq<TeamApi>, req: PostRequest, newId: string, now: int)
    ensures var o := HandlePost(rows, req, newId, now);
      (!req.enabled.Undefined? ==> forall k :: 0 <= k < |rows| ==> o.rows[k].dashboardEnabled == rows[k].dashboardEnabled)
    ensures var o := HandlePost(rows, req, newId, now);
      o.response.VisibilityChanged? ==>
        var i := FindRecord(rows, req.teamId, req.endpoint);
        i.Some? && o.rows == rows[i.value := rows[i.value].(dashboardEnabled := req.dashboardEnabled, updatedAt := Some(now))]
    ensures var o := HandlePost(rows, req, newId, now);
      o.response == AccessNotFound <==>
        req.teamId != "" && req.apiId != "" && req.endpoint != "" && Hex24(req.teamId) && req.enabled.Undefined? &&
        !req.dashboardEnabled.Undefined? && FindRecord(rows, req.teamId, req.endpoint).None?
  {
  }

  /** Hiding an api with `dashboardEnabled: false` takes it off the dashboard
      wherever that record is the one GET reads. */
  lemma HiddenNotShown(rows: seq<TeamApi>, req: PostRequest, newId: string, now: int, g: GlobalApi)
    requires req.dashboardEnabled == Bool(false)
    requires HandlePost(rows, req, newId, now).response.VisibilityChanged?
    ensures var o := HandlePost(rows, req, newId, now);
      var i := FindRecord(rows, req.teamId, req.endpoint).value;
      !View(g, Some(o.rows[i])).willShowOnDashboard
  {
  }

  lemma FirstIndexUpdate<T>(s: seq<T>, i: nat, x: T, p: T -> bool)
    requires FirstIndex(s, p) == Some(i) && p(x)
    ensures FirstIndex(s[i := x], p) == Some(i)
  {
    assert s[i := x][i] == x;
  }

  lemma FirstIndexAppend<T>(s: seq<T>, x: T, p: T -> bool)
    requires FirstIndex(s, p).None? && p(x)
    ensures FirstIndex(s + [x], p) == Some(|s|)
  {
    assert (s + [x])[|s|] == x;
    assert forall j :: 0 <= j < |s| ==> (s + [x])[j] == s[j];
  }

  // ---------------------------------------------------------------------
  // PATCH: rate limit and credits per call
  // ---------------------------------------------------------------------

  datatype PatchRequest = PatchRequest(teamId: string, endpoint: string, rateLimit: JsValue, creditsPerCall: JsValue)

  datatype PatchResponse =
    | PatchMissingFields     // 400
    | NoSettings             // 400
    | BadRateLimit           // 400
    | BadCreditsPerCall      // 400
    | PatchInvalidObjectId   // 500: `new ObjectId` throws
    | SettingsNotFound       // 404
    | SettingsUpdated(messages: seq<string>)

  /** The `$set` of a PATCH applied to a record: each given setting, and the
      time stamp. */
  function Patched(ta: TeamApi, rateLimit: JsValue, creditsPerCall: JsValue, now: int): (r: TeamApi)
    ensures r.rateLimit == (if rateLimit.Undefined? then ta.rateLimit else rateLimit)
    ensures r.creditsPerCall == (if creditsPerCall.Undefined? then ta.creditsPerCall else creditsPerCall)
    ensures r.updatedAt == Some(now)
    ensures r.(rateLimit := ta.rateLimit, creditsPerCall := ta.creditsPerCall, updatedAt := ta.updatedAt) == ta
  {
    ta.(rateLimit := if rateLimit.Undefined? then ta.rateLimit else rateLimit,
        creditsPerCall := if creditsPerCall.Undefined? then ta.creditsPerCall else creditsPerCall,
        updatedAt := Some(now))
  }

  /** At least one setting is given, and every given one is a
      non-negative number. */
  predicate PatchValuesValid(req: PatchRequest)
  {
    !(req.rateLimit.Undefined? && req.creditsPerCall.Undefined?) &&
    (req.rateLimit.Undefined? || IsNonNegativeNumber(req.rateLimit)) &&
    (req.creditsPerCall.Undefined? || IsNonNegativeNumber(req.creditsPerCall))
  }

  /** The answer PATCH gives before it writes anything, in the order the
      route tests: missing fields, no setting, a bad rate limit, a bad
      credits per call (400 each), a team id `new ObjectId` rejects (500),
      and no record for the team and endpoint (404). `None` means the
      update goes ahead on an existing record. */
  function PatchRefusal(rows: seq<TeamApi>, req: PatchRequest): (r: Option<PatchResponse>)
    ensures r == Some(PatchMissingFields) <==> req.teamId == "" || req.endpoint == ""
    ensures r == Some(NoSettings) <==>
      req.teamId != "" && req.endpoint != "" && req.rateLimit.Undefined? && req.creditsPerCall.Undefined?
    ensures r == Some(BadRateLimit) <==>
      req.teamId != "" && req.endpoint != "" && !(req.rateLimit.Undefined? && req.creditsPerCall.Undefined?) &&
      !req.rateLimit.Undefined? && !IsNonNegativeNumber(req.rateLimit)
    ensures r == Some(BadCreditsPerCall) <==>
      req.teamId != "" && req.endpoint != "" && !(req.rateLimit.Undefined? && req.creditsPerCall.Undefined?) &&
      (req.rateLimit.Undefined? || IsNonNegativeNumber(req.rateLimit)) &&
      !req.creditsPerCall.Undefined? && !IsNonNegativeNumber(req.creditsPerCall)
    ensures r == Some(PatchInvalidObjectId) <==>
      req.teamId != "" && req.endpoint != "" && PatchValuesValid(req) && !Hex24(req.teamId)
    ensures r == Some(SettingsNotFound) <==>
      req.teamId != "" && req.endpoint != "" && PatchValuesValid(req) &&
      Hex24(req.teamId) && FindRecord(rows, req.teamId, req.endpoint).None?
    ensures r.None? <==>
      req.teamId != "" && req.endpoint != "" && PatchValuesValid(req) &&
      Hex24(req.teamId) && FindRecord(rows, req.teamId, req.endpoint).Some?
    ensures r.Some? ==> !r.value.SettingsUpdated?
  {
    if req.teamId == "" || req.endpoint == "" then Some(PatchMissingFields)
    else if req.rateLimit.Undefined? && req.creditsPerCall.Undefined? then Some(NoSettings)
    else if !req.rateLimit.Undefined? && !IsNonNegativeNumber(req.rateLimit) then Some(BadRateLimit)
    else if !req.creditsPerCall.Undefined? && !IsNonNegativeNumber(req.creditsPerCall) then Some(BadCreditsPerCall)
    else if !Hex24(req.teamId) then Some(PatchInvalidObjectId)
    else if FindRecord(rows, req.teamId, req.endpoint).None? then Some(SettingsNotFound)
    else None
  }

  class TeamApiTable {
    var rows: seq<TeamApi>

    constructor (rows: seq<TeamApi>)
      ensures this.rows == rows
    {
      this.rows := rows;
    }

    method Post(req: PostRequest, newId: string, now: int) returns (resp: PostResponse)
      modifies this
      ensures var o := HandlePost(old(rows), req, newId, now);
        resp == o.response && rows == o.rows
    {
      var o := HandlePost(rows, req, newId, now);
      rows := o.rows;
      resp := o.response;
    }

    /** PATCH: validates the body, then sets the given settings and the time
        stamp on the first record for the team and endpoint. */
    method Patch(req: PatchRequest, now: int) returns (resp: PatchResponse)
      modifies this
      ensures PatchRefusal(old(rows), req).Some? ==> resp == PatchRefusal(old(rows), req).value && rows == old(rows)
      ensures PatchRefusal(old(rows), req).None? ==>
        var i := FindRecord(old(rows), req.teamId, req.endpoint).value;
        rows == old(rows)[i := Patched(old(rows)[i], req.rateLimit, req.creditsPerCall, now)] &&
        resp == SettingsUpdated(
          (if req.rateLimit.Undefined? then [] else ["Rate limit set to " + NumberText(req.rateLimit) + "/min"]) +
          (if req.creditsPerCall.Undefined? then [] else ["Credits per call set to " + NumberText(req.creditsPerCall)]))
    {
      var refusal := PatchRefusal(rows, req);
      if refusal.Some? {
        return refusal.value;
      }
      var found := FindRecord(rows, req.teamId, req.endpoint);
      var i := found.value;
      // The `$set` document, built one field at a time.
      var record := rows[i].(updatedAt := Some(now));
      if !req.rateLimit.Undefined? {
        record := record.(rateLimit := req.rateLimit);
      }
      if !req.creditsPerCall.Undefined? {
        record := record.(creditsPerCall := req.creditsPerCall);
      }
      assert record == Patched(rows[i], req.rateLimit, req.creditsPerCall, now);
      rows := rows[i := record];
      var messages: seq<string> := [];
      if !req.rateLimit.Undefined? {
        messages := messages + ["Rate limit set to " + NumberText(req.rateLimit) + "/min"];
      }
      if !req.creditsPerCall.Undefined? {
        messages := messages + ["Credits per call set to " + NumberText(req.creditsPerCall)];
      }
      assert messages ==
        (if req.rateLimit.Undefined? then [] else ["Rate limit set to " + NumberText(req.rateLimit) + "/min"]) +
        (if req.creditsPerCall.Undefined? then [] else ["Credits per call set to " + NumberText(req.creditsPerCall)]);
      resp := SettingsUpdated(messages);
    }
  }
}

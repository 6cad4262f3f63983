/**
  POST /api/credits/add: an operator adds credit to a team or refunds
  consumption. Addition raises `base_credit`; a refund lowers `credits_used`,
  clamped at 0; every other action type is an addition. A successful
  mutation pushes a `credit_history` entry onto the team and makes a
  best-effort append of an audit record to `credit-logs`, in the currency of
  available credit (`base_credit - credits_used`).

  The request is atomic over one snapshot of the teams collection.
*/
module CreditsAdd {
  import opened Common
  import opened Models

  /** The JSON body: `{ teamId, amount, note, actionType = 'credit_addition' }`.
      An empty `teamId` or `note` is a missing (falsy) one; `actionType` is
      `None` when the field is absent. */
  datatype AddRequest = AddRequest(teamId: string, amount: JsValue, note: string, actionType: Option<string>)

  datatype Failure =
    | MissingFields        // 400 'Team ID and amount are required'
    | AmountNotPositive    // 400 'Amount must be a positive number'
    | InvalidTeamId        // 400 'Invalid team ID format'
    | TeamNotFound         // 404 'Team not found'

  datatype Response =
    | Failed(failure: Failure)
    | Succeeded(team: TeamDoc, availableCredits: int)

  function StatusCode(r: Response): (code: int)
    ensures r.Succeeded? <==> code == 200
  {
    match r
    case Succeeded(_, _) => 200
    case Failed(TeamNotFound) => 404
    case Failed(_) => 400
  }

  /** The action type after the destructuring default. */
  function ActionOf(req: AddRequest): string
  {
    if req.actionType.Some? then req.actionType.value else "credit_addition"
  }

  predicate IsRefund(action: string)
  {
    action == "refund"
  }

  // ---------------------------------------------------------------------
  // Balance arithmetic
  // ---------------------------------------------------------------------

  /** New counters and the available credit before and after. */
  datatype Mutation = Mutation(newBaseCredit: int, newCreditsUsed: int, previousAvailable: int, newAvailable: int)

  function Max(a: int, b: int): int { if a >= b then a else b }
  function Min(a: int, b: int): int { if a <= b then a else b }

  /** The counters after `action` with `amount`, from `base` and `used`. */
  function Apply(base: int, used: int, action: string, amount: int): (m: Mutation)
    ensures m.previousAvailable == base - used
    ensures m.newAvailable == m.newBaseCredit - m.newCreditsUsed
  {
    if IsRefund(action) then
      var newUsed := Max(0, used - amount);
      Mutation(base, newUsed, base - used, base - newUsed)
    else
      var newBase := base + amount;
      Mutation(newBase, used, base - used, newBase - used)
  }

  /** An addition raises `base_credit` by exactly `amount`, keeps
      `credits_used`, and so raises available credit by exactly `amount`. */
  lemma AdditionEffect(base: int, used: int, action: string, amount: int)
    requires !IsRefund(action)
    ensures var m := Apply(base, used, action, amount);
      m.newBaseCredit == base + amount && m.newCreditsUsed == used &&
      m.newAvailable - m.previousAvailable == amount
  {
  }

  /** A refund keeps `base_credit` and clamps `credits_used` at 0, so it
      never becomes negative. */
  lemma RefundClamp(base: int, used: int, amount: int)
    ensures var m := Apply(base, used, "refund", amount);
      m.newBaseCredit == base && m.newCreditsUsed == Max(0, used - amount) && m.newCreditsUsed >= 0
  {
  }

  /** From a non-negative `credits_used`, a refund of a positive `amount`
      gives back `min(amount, credits_used)`: never more than asked, never
      more than was consumed. */
  lemma RefundEffect(base: int, used: int, amount: int)
    requires used >= 0 && amount > 0
    ensures var m := Apply(base, used, "refund", amount);
      m.newAvailable - m.previousAvailable == Min(amount, used) &&
      0 <= m.newAvailable - m.previousAvailable <= amount
  {
  }

  /** Any action type but the literal "refund" (the default included)
      mutates the counters exactly as "credit_addition" does. */
  lemma OtherActionsAreAdditions(base: int, used: int, action: string, amount: int)
    requires action != "refund"
    ensures Apply(base, used, action, amount) == Apply(base, used, "credit_addition", amount)
  {
  }

  /** `typeof amount === 'number' && amount > 0`: a positive integer or
      `Infinity`, which `JSON.parse` yields for a literal such as `1e999`. */
  predicate PositiveAmount(v: JsValue)
  {
    (v.Num? && v.n > 0) || v.PosInf?
  }

  /** The amount as a number. */
  function AmountOf(v: JsValue): (a: ExtInt)
    requires PositiveAmount(v)
    ensures v.Num? <==> a.Fin?
    ensures v.Num? ==> a == Fin(v.n)
  {
    if v.Num? then Fin(v.n) else Inf
  }

  /** Whether the counters after the update are finite numbers: every
      finite amount, and an infinite refund, whose `Math.max(0, used -
      Infinity)` is 0. An infinite addition stores `Infinity` in
      `base_credit`, which this model of a team does not hold. */
  predicate Finite(action: string, amount: ExtInt)
  {
    amount.Fin? || IsRefund(action)
  }

  /** The counters after `action` with a possibly infinite `amount`. */
  function Counters(base: int, used: int, action: string, amount: ExtInt): (m: Mutation)
    requires Finite(action, amount)
    ensures m.previousAvailable == base - used
    ensures m.newAvailable == m.newBaseCredit - m.newCreditsUsed
  {
    if amount.Fin? then Apply(base, used, action, amount.n)
    else Mutation(base, 0, base - used, base)
  }

  /** An infinite refund clears `credits_used`, exactly as any finite
      refund of at least the consumption does. */
  lemma InfiniteRefundClears(base: int, used: int, a: int)
    requires a >= used
    ensures Counters(base, used, "refund", Inf) == Apply(base, used, "refund", a)
    ensures Counters(base, used, "refund", Inf).newCreditsUsed == 0
  {
  }

  // ---------------------------------------------------------------------
  // The documents written
  // ---------------------------------------------------------------------

  /** `note || default`. */
  function NoteOr(note: string, default: string): (r: string)
    ensures note != "" ==> r == note
    ensures note == "" ==> r == default
  {
    if note != "" then note else default
  }

  /** The team after the update: the changed counter, the pushed history
      entry and the `updatedAt` stamp. */
  function UpdatedTeam(t: TeamDoc, action: string, amount: ExtInt, note: string, now: int): (u: TeamDoc)
    requires Finite(action, amount)
  {
    var m := Counters(OrZero(t.baseCredit), OrZero(t.creditsUsed), action, amount);
    if IsRefund(action) then
      t.(creditsUsed := Some(m.newCreditsUsed),
         creditsUpdatedAt := Some(now),
         creditHistory := t.creditHistory + [RefundEntry(amount,
            NoteOr(note, "Credits refunded by support"),
            OrZero(t.creditsUsed), m.newCreditsUsed, m.previousAvailable, m.newAvailable, action, now)])
    else
      t.(baseCredit := Some(m.newBaseCredit),
         creditsUpdatedAt := Some(now),
         creditHistory := t.creditHistory + [AdditionEntry(amount,
            NoteOr(note, "Credits added by support"),
            OrZero(t.baseCredit), m.newBaseCredit, m.previousAvailable, m.newAvailable, action, now)])
  }

  /** The audit record `CreditLog.create` is asked to write. */
  function AuditRecord(t: TeamDoc, action: string, amount: ExtInt, note: string, operatorCookie: string): CreditLog
    requires Finite(action, amount)
  {
    var m := Counters(OrZero(t.baseCredit), OrZero(t.creditsUsed), action, amount);
    CreditLog(
      if operatorCookie != "" then operatorCookie else "unknown@support.local",
      t.id, t.name, action, amount, m.previousAvailable, m.newAvailable,
      NoteOr(note, if IsRefund(action) then "Credits refunded (credits_used decreased) by support"
                   else "Credits added (base_credit increased) by support"),
      NotApplicable)
  }

  /** The response, the teams collection afterwards, and what was appended
      to `credit-logs`. */
  datatype Outcome = Outcome(response: Response, docs: seq<TeamDoc>, appended: seq<CreditLog>)

  /** The requests whose result this model can hold: all but an infinite
      addition. */
  predicate Modelled(req: AddRequest)
  {
    !(req.amount.PosInf? && !IsRefund(ActionOf(req)))
  }

  /** The whole handler as a function of the snapshot. `auditStoreUp` says
      whether the audit store accepts writes at all; the operator's email
      comes from the `support_user_email` cookie ("" when absent). */
  function Handle(docs: seq<TeamDoc>, req: AddRequest, operatorCookie: string, auditStoreUp: bool, now: int): (o: Outcome)
    requires Modelled(req)
    ensures o.response.Failed? ==> o.docs == docs && o.appended == []
    ensures o.response.Succeeded? ==> |o.docs| == |docs| && |o.appended| <= 1
    ensures o.response.Succeeded? ==> PositiveAmount(req.amount) && Hex24(req.teamId)
    ensures o.response.Succeeded? ==>
      FindTeam(docs, req.teamId).Some? &&
      var log := AuditRecord(docs[FindTeam(docs, req.teamId).value], ActionOf(req),
                             AmountOf(req.amount), req.note, operatorCookie);
      o.appended == (if auditStoreUp && PassesCreditLogSchema(log) then [log] else [])
  {
    if req.teamId == "" || !Truthy(req.amount) then Outcome(Failed(MissingFields), docs, [])
    else if !PositiveAmount(req.amount) then Outcome(Failed(AmountNotPositive), docs, [])
    else if !Hex24(req.teamId) then Outcome(Failed(InvalidTeamId), docs, [])
    else
      match FindTeam(docs, req.teamId)
      case None => Outcome(Failed(TeamNotFound), docs, [])
      case Some(i) =>
        var t := docs[i];
        var action := ActionOf(req);
        var amount := AmountOf(req.amount);
        var u := UpdatedTeam(t, action, amount, req.note, now);
        var log := AuditRecord(t, action, amount, req.note, operatorCookie);
        var appended := if auditStoreUp && PassesCreditLogSchema(log) then [log] else [];
        Outcome(Succeeded(u, Available(u)), docs[i := u], appended)
  }

  // ---------------------------------------------------------------------
  // Properties of the handler
  // ---------------------------------------------------------------------

  /** A missing, zero, non-numeric or non-positive amount is rejected with
      400 before the store is touched. */
  lemma RejectsBadAmount(docs: seq<TeamDoc>, req: AddRequest, op: string, up: bool, now: int)
    requires !PositiveAmount(req.amount)
    ensures var o := Handle(docs, req, op, up, now);
      StatusCode(o.response) == 400 && o.docs == docs && o.appended == []
  {
  }

  /** A well-formed request for an unknown team gets 404 and changes nothing. */
  lemma UnknownTeam(docs: seq<TeamDoc>, req: AddRequest, op: string, up: bool, now: int)
    requires Modelled(req) && PositiveAmount(req.amount) && Hex24(req.teamId)
    requires forall j :: 0 <= j < |docs| ==> docs[j].id != req.teamId
    ensures var o := Handle(docs, req, op, up, now);
      o.response == Failed(TeamNotFound) && StatusCode(o.response) == 404 &&
      o.docs == docs && o.appended == []
  {
  }

  /** A success touches exactly the team addressed: it stamps
      `updatedAt`, pushes one history entry recording the requested amount,
      the action and the available credit before and after, and changes
      no other field but the one counter; it reports the recomputed
      available credit, and any audit record written carries the same
      amount and balances. */
  lemma SuccessShape(docs: seq<TeamDoc>, req: AddRequest, op: string, up: bool, now: int)
    requires Modelled(req)
    requires Handle(docs, req, op, up, now).response.Succeeded?
    ensures var o := Handle(docs, req, op, up, now);
      var u := o.response.team;
      exists i :: 0 <= i < |docs| && docs[i].id == req.teamId &&
        o.docs == docs[i := u] &&
        o.response.availableCredits == Available(u) &&
        u.(baseCredit := docs[i].baseCredit, creditsUsed := docs[i].creditsUsed,
           creditsUpdatedAt := docs[i].creditsUpdatedAt, creditHistory := docs[i].creditHistory) == docs[i] &&
        u.creditsUpdatedAt == Some(now) &&
        |u.creditHistory| == |docs[i].creditHistory| + 1 &&
        u.creditHistory[..|docs[i].creditHistory|] == docs[i].creditHistory &&
        (var e := u.creditHistory[|docs[i].creditHistory|];
         e.amount == AmountOf(req.amount) && e.actionType == ActionOf(req) && e.at == now &&
         e.previousAvailable == Available(docs[i]) && e.newAvailable == Available(u)) &&
        (forall log :: log in o.appended ==>
          log.amount == AmountOf(req.amount) &&
          log.previousBalance == Available(docs[i]) &&
          log.newBalance == Available(u))
  {
    var i := FindTeam(docs, req.teamId).value;
    var t := docs[i];
    var action := ActionOf(req);
    var amount := AmountOf(req.amount);
    var u := UpdatedTeam(t, action, amount, req.note, now);
    var n := |t.creditHistory|;
    assert u.creditHistory[..n] == t.creditHistory;
  }

  /** An addition raises `base_credit` by the amount, keeps `credits_used`
      and every other field, stamps `updatedAt` and pushes an addition
      entry with the default note when none was given. */
  lemma AdditionRequest(docs: seq<TeamDoc>, req: AddRequest, op: string, up: bool, now: int, i: nat)
    requires req.amount.Num? && req.amount.n > 0 && Hex24(req.teamId) && !IsRefund(ActionOf(req))
    requires FindTeam(docs, req.teamId) == Some(i)
    ensures var o := Handle(docs, req, op, up, now);
      var t := docs[i];
      var base := OrZero(t.baseCredit);
      var used := OrZero(t.creditsUsed);
      var a := req.amount.n;
      o.docs == docs[i := o.docs[i]] &&
      o.docs[i] == t.(baseCredit := Some(base + a), creditsUpdatedAt := Some(now),
        creditHistory := t.creditHistory + [AdditionEntry(Fin(a), NoteOr(req.note, "Credits added by support"),
          base, base + a, base - used, base + a - used, ActionOf(req), now)]) &&
      Available(o.docs[i]) - Available(t) == a
  {
  }

  /** A refund keeps `base_credit` and every other field, stores a clamped,
      non-negative `credits_used` (0 for an infinite amount), stamps
      `updatedAt` and pushes a refund entry with the default note when none
      was given. */
  lemma RefundRequest(docs: seq<TeamDoc>, req: AddRequest, op: string, up: bool, now: int, i: nat)
    requires PositiveAmount(req.amount) && Hex24(req.teamId) && IsRefund(ActionOf(req))
    requires FindTeam(docs, req.teamId) == Some(i)
    ensures var o := Handle(docs, req, op, up, now);
      var t := docs[i];
      var base := OrZero(t.baseCredit);
      var used := OrZero(t.creditsUsed);
      var newUsed := if req.amount.Num? then Max(0, used - req.amount.n) else 0;
      o.docs == docs[i := o.docs[i]] &&
      o.docs[i] == t.(creditsUsed := Some(newUsed), creditsUpdatedAt := Some(now),
        creditHistory := t.creditHistory + [RefundEntry(AmountOf(req.amount),
          NoteOr(req.note, "Credits refunded by support"),
          used, newUsed, base - used, base - newUsed, "refund", now)]) &&
      newUsed >= 0
  {
  }

  /** The audit record names the operator (the cookie, or
      `unknown@support.local` without one), the team's id and name, the
      action and the requested amount; its balances are the available
      credit of the team before and after the update; its reason is the
      note, or a default that says which counter moved; its payment status
      is left at `not_applicable`. */
  lemma AuditRecordFields(t: TeamDoc, action: string, amount: ExtInt, note: string, operatorCookie: string, now: int)
    requires Finite(action, amount)
    ensures var log := AuditRecord(t, action, amount, note, operatorCookie);
      (operatorCookie != "" ==> log.supportUserEmail == operatorCookie) &&
      (operatorCookie == "" ==> log.supportUserEmail == "unknown@support.local") &&
      log.teamId == t.id && log.teamName == t.name &&
      log.actionType == action && log.amount == amount &&
      log.previousBalance == Available(t) &&
      log.newBalance == Available(UpdatedTeam(t, action, amount, note, now)) &&
      (note != "" ==> log.reason == note) &&
      (note == "" && IsRefund(action) ==> log.reason == "Credits refunded (credits_used decreased) by support") &&
      (note == "" && !IsRefund(action) ==> log.reason == "Credits added (base_credit increased) by support") &&
      log.paymentStatus == NotApplicable
  {
  }

  /** A success writes exactly one audit record, the team's, whenever the
      audit store is up, the action is one the audit schema lists and the
      team has a name. */
  lemma AuditAppended(docs: seq<TeamDoc>, req: AddRequest, op: string, now: int, i: nat)
    requires Modelled(req) && PositiveAmount(req.amount) && Hex24(req.teamId)
    requires FindTeam(docs, req.teamId) == Some(i)
    requires IsLoggedActionType(ActionOf(req)) && docs[i].name != ""
    ensures var o := Handle(docs, req, op, true, now);
      o.response.Succeeded? &&
      o.appended == [AuditRecord(docs[i], ActionOf(req), AmountOf(req.amount), req.note, op)]
  {
  }

  /** The audit record stores the requested amount even when the refund was
      clamped: its balance difference is then smaller than its amount. */
  lemma ClampedRefundAudit()
    ensures var t := TeamDoc("0123456789abcdef01234567", "u", "Acme", [], Some(1000), Some(400), None,
                             None, Undefined, Undefined, [], None, None);
      var log := AuditRecord(t, "refund", Fin(700), "", "ops@example.com");
      log.amount == Fin(700) && log.previousBalance == 600 && log.newBalance == 1000
  {
  }

  /** Whether the audit store is reachable changes neither the response nor
      the counters: audit writing is best-effort. */
  lemma AuditFailureKeepsSuccess(docs: seq<TeamDoc>, req: AddRequest, op: string, now: int)
    requires Modelled(req)
    ensures Handle(docs, req, op, false, now).response == Handle(docs, req, op, true, now).response
    ensures Handle(docs, req, op, false, now).docs == Handle(docs, req, op, true, now).docs
    ensures Handle(docs, req, op, false, now).appended == []
  {
  }

  /** An action type outside the audit schema's enum still changes the
      counters, but its audit record is refused by the schema. */
  lemma UnknownActionNotAudited(docs: seq<TeamDoc>, req: AddRequest, op: string, now: int)
    requires Modelled(req) && !IsLoggedActionType(ActionOf(req))
    ensures Handle(docs, req, op, true, now).appended == []
  {
  }

  // ---------------------------------------------------------------------
  // The handler as it runs against the collections
  // ---------------------------------------------------------------------

  method Post(teams: TeamCollection, logs: CreditLogCollection, req: AddRequest,
              operatorCookie: string, auditStoreUp: bool, now: int) returns (resp: Response)
    requires Modelled(req)
    modifies teams, logs
    ensures var o := Handle(old(teams.docs), req, operatorCookie, auditStoreUp, now);
      resp == o.response && teams.docs == o.docs && logs.entries == old(logs.entries) + o.appended
    ensures old(logs.entries) <= logs.entries
  {
    if req.teamId == "" || !Truthy(req.amount) {
      return Failed(MissingFields);
    }
    if !PositiveAmount(req.amount) {
      return Failed(AmountNotPositive);
    }
    if !Hex24(req.teamId) {
      return Failed(InvalidTeamId);
    }
    var found := FindTeam(teams.docs, req.teamId);
    if found.None? {
      return Failed(TeamNotFound);
    }
    var i := found.value;
    var team := teams.docs[i];
    var action := ActionOf(req);
    var amount := AmountOf(req.amount);
    var updated := UpdatedTeam(team, action, amount, req.note, now);
    teams.docs := teams.docs[i := updated];
    // The audit append is best-effort: a failure is swallowed.
    var log := AuditRecord(team, action, amount, req.note, operatorCookie);
    if auditStoreUp && PassesCreditLogSchema(log) {
      logs.entries := logs.entries + [log];
    }
    resp := Succeeded(updated, Available(updated));
  }
}

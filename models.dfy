/**
  Document shapes of the collections the core routes read and write
  (`teams`, `credit-logs`, `linkedin_accounts`), the ordered `api_limits`
  object of a team, and the collections themselves as objects whose row
  sequence a request handler reads and replaces.
*/
module Models {
  import opened Common

  // ---------------------------------------------------------------------
  // First match in a collection (`findOne` / `updateOne` pick the first
  // document in natural order that satisfies the filter)
  // ---------------------------------------------------------------------

  function FirstIndex<T>(s: seq<T>, p: T -> bool): (r: Option<nat>)
    ensures r.Some? ==> r.value < |s| && p(s[r.value])
    ensures r.Some? ==> forall j :: 0 <= j < r.value ==> !p(s[j])
    ensures r.None? ==> forall j :: 0 <= j < |s| ==> !p(s[j])
  {
    if |s| == 0 then None
    else if p(s[0]) then Some(0)
    else
      match FirstIndex(s[1..], p)
      case None => None
      case Some(k) => Some(k + 1)
  }

  // ---------------------------------------------------------------------
  // api_limits: an object from api name to limit, in key order
  // ---------------------------------------------------------------------

  datatype ApiLimit = ApiLimit(key: string, value: JsValue)

  predicate UniqueKeys(entries: seq<ApiLimit>)
  {
    forall i, j :: 0 <= i < j < |entries| ==> entries[i].key != entries[j].key
  }

  function Keys(entries: seq<ApiLimit>): (ks: seq<string>)
    ensures |ks| == |entries|
    ensures forall i :: 0 <= i < |entries| ==> ks[i] == entries[i].key
  {
    seq(|entries|, i requires 0 <= i < |entries| => entries[i].key)
  }

  predicate HasKey(key: string, e: ApiLimit)
  {
    e.key == key
  }

  /** Position of `key` in the object, if present. */
  function KeyIndex(entries: seq<ApiLimit>, key: string): (r: Option<nat>)
    ensures r.Some? ==> r.value < |entries| && entries[r.value].key == key
    ensures r.None? ==> forall j :: 0 <= j < |entries| ==> entries[j].key != key
  {
    FirstIndex(entries, e => HasKey(key, e))
  }

  /** `api_limits[key]`. */
  function Lookup(entries: seq<ApiLimit>, key: string): (r: Option<JsValue>)
    ensures r.None? <==> forall j :: 0 <= j < |entries| ==> entries[j].key != key
    ensures r.Some? && UniqueKeys(entries) ==>
      forall i :: 0 <= i < |entries| && entries[i].key == key ==> entries[i].value == r.value
  {
    match KeyIndex(entries, key)
    case Some(i) => Some(entries[i].value)
    case None => None
  }

  /** In an object with unique keys, the entry at position `i` is what
      looking its key up gives. */
  lemma LookupAt(entries: seq<ApiLimit>, i: nat)
    requires UniqueKeys(entries) && i < |entries|
    ensures Lookup(entries, entries[i].key) == Some(entries[i].value)
  {
  }

  /** `$set: { ['api_limits.' + key]: v }`: an existing key keeps its place,
      a new key goes last. */
  function SetLimit(entries: seq<ApiLimit>, key: string, v: JsValue): (r: seq<ApiLimit>)
    requires UniqueKeys(entries)
    ensures UniqueKeys(r)
    ensures Lookup(r, key) == Some(v)
    ensures Lookup(entries, key).Some? ==> Keys(r) == Keys(entries)
    ensures Lookup(entries, key).None? ==> r == entries + [ApiLimit(key, v)]
  {
    match KeyIndex(entries, key)
    case Some(i) =>
      var r := entries[i := ApiLimit(key, v)];
      assert Keys(r) == Keys(entries);
      LookupAt(r, i);
      r
    case None =>
      var r := entries + [ApiLimit(key, v)];
      LookupAt(r, |entries|);
      r
  }

  /** Setting one key leaves every other key's value as it was. */
  lemma SetLimitOthers(entries: seq<ApiLimit>, key: string, v: JsValue, k: string)
    requires UniqueKeys(entries) && k != key
    ensures Lookup(SetLimit(entries, key, v), k) == Lookup(entries, k)
  {
    var r := SetLimit(entries, key, v);
    if Lookup(entries, k).Some? {
      var i :| 0 <= i < |entries| && entries[i].key == k;
      assert r[i] == entries[i];
      LookupAt(entries, i);
      LookupAt(r, i);
    } else {
      assert forall j :: 0 <= j < |r| ==> r[j].key != k;
    }
  }

  // ---------------------------------------------------------------------
  // teams
  // ---------------------------------------------------------------------

  datatype Member = Member(uid: string, email: string, name: string)

  /** One `credit_history` element pushed by the credit route; the two
      actions record different counters. The amount is the requested JSON
      number, which may be `Infinity` (`1e999` in the body). */
  datatype HistoryEntry =
    | RefundEntry(amount: ExtInt, note: string, previousCreditsUsed: int, newCreditsUsed: int,
                  previousAvailable: int, newAvailable: int, actionType: string, at: int)
    | AdditionEntry(amount: ExtInt, note: string, previousBaseCredit: int, newBaseCredit: int,
                    previousAvailable: int, newAvailable: int, actionType: string, at: int)

  /** A `teams` document. Optional numbers are fields that may be missing
      (read as `field || 0`); `apiLimits` is `None` when the field is missing
      or not an object. The credit route stamps `updatedAt` while the
      rate-limit routes stamp a different field, `updated_at`: they are
      `creditsUpdatedAt` and `updatedAt` here. */
  datatype TeamDoc = TeamDoc(
    id: string,
    uid: string,
    name: string,
    members: seq<Member>,
    baseCredit: Option<int>,
    creditsUsed: Option<int>,
    credits: Option<int>,
    apiLimits: Option<seq<ApiLimit>>,
    followersTeamLimit: JsValue,
    followersRequestLimit: JsValue,
    creditHistory: seq<HistoryEntry>,
    creditsUpdatedAt: Option<int>,
    updatedAt: Option<int>)

  /** Available credit: `(base_credit || 0) - (credits_used || 0)`. */
  function Available(t: TeamDoc): int
  {
    OrZero(t.baseCredit) - OrZero(t.creditsUsed)
  }

  predicate HasId(id: string, t: TeamDoc)
  {
    t.id == id
  }

  /** `findOne({ _id })` on the teams collection. */
  function FindTeam(docs: seq<TeamDoc>, id: string): (r: Option<nat>)
    ensures r.Some? ==> r.value < |docs| && docs[r.value].id == id
    ensures r.None? ==> forall j :: 0 <= j < |docs| ==> docs[j].id != id
  {
    FirstIndex(docs, t => HasId(id, t))
  }

  class TeamCollection {
    var docs: seq<TeamDoc>

    constructor (docs: seq<TeamDoc>)
      ensures this.docs == docs
    {
      this.docs := docs;
    }
  }

  // ---------------------------------------------------------------------
  // credit-logs
  // ---------------------------------------------------------------------

  datatype PaymentStatus = Pending | Received | NotApplicable

  /** A `credit-logs` document. The operator's user id and the creation time
      are not modelled. */
  datatype CreditLog = CreditLog(
    supportUserEmail: string,
    teamId: string,
    teamName: string,
    actionType: string,
    amount: ExtInt,
    previousBalance: int,
    newBalance: int,
    reason: string,
    paymentStatus: PaymentStatus)

  /** The schema's enum for `action_type`. */
  predicate IsLoggedActionType(a: string)
  {
    a == "refund" || a == "credit_addition" || a == "credit_deduction" || a == "adjustment"
  }

  /** What the schema validators demand before `create` writes: the enum on
      `action_type` and non-empty required strings. */
  predicate PassesCreditLogSchema(log: CreditLog)
  {
    IsLoggedActionType(log.actionType) && log.teamName != "" && log.supportUserEmail != ""
  }

  /** Append-only: handlers only ever extend `entries`. */
  class CreditLogCollection {
    var entries: seq<CreditLog>

    constructor ()
      ensures entries == []
    {
      entries := [];
    }
  }

  // ---------------------------------------------------------------------
  // linkedin_accounts (scraper accounts)
  // ---------------------------------------------------------------------

  datatype Proxy = Proxy(host: string, port: Option<int>, username: string, password: string)

  /** `encryptPassword(p)` is foreign code: the stored secret is kept
      symbolic, `NoSecret` being the empty string. */
  datatype Secret = NoSecret | Encrypted(plain: string)

  /** A `linkedin_accounts` document. A numeric field holding NaN is `None`. */
  datatype Account = Account(
    accountIndex: int,
    name: string,
    email: string,
    profileUrn: string,
    encryptedPassword: Secret,
    twoFaAuthToken: string,
    cookiePath: string,
    proxy: Option<Proxy>,
    linkedinProfileUrl: string,
    location: string,
    accountYear: string,
    connectionCount: Option<int>,
    recoveryEmail: string,
    isNew: bool,
    status: string,
    active: bool,
    hourlyRequests: int,
    dailyRequests: int,
    dailyFollowers: int,
    dailyFollowersLimit: int,
    inCooldown: bool,
    cooldownReason: string,
    hasExperience: bool,
    errorCount: int,
    lastError: string,
    permanentlyDisabled: bool,
    createdAt: int,
    updatedAt: int)

  class AccountCollection {
    var rows: seq<Account>

    constructor (rows: seq<Account>)
      ensures this.rows == rows
    {
      this.rows := rows;
    }
  }
}

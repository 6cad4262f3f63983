/**
  The two scraper-account write routes over the `linkedin_accounts`
  collection: POST /api/sales-nav-accounts/create inserts a new account
  with the next free `account_index`, and POST
  /api/sales-nav-accounts/update rewrites the fields a request carries on
  the account with a given index. Both validate before any write.

  String fields of a body are `Option<string>`, `None` being an absent
  (undefined) field. `encryptPassword` is foreign code: whether it succeeds
  (the encryption key is configured) is the parameter `keyOk`, and its
  result is kept symbolic.
*/
module SalesNav {
  import opened Common
  import opened Models

  /** The `proxy` object of a body. A `null` or non-object proxy reads as
      one whose sub-fields are all absent. */
  datatype ProxyInput = ProxyInput(host: Option<string>, port: JsValue, username: Option<string>, password: Option<string>)

  /** `s?.trim() || ''`. */
  function TrimOrEmpty(s: Option<string>): string
  {
    if s.Some? then Trim(s.value) else ""
  }

  /** `s.trim().toLowerCase()`: how both routes store an address. */
  function EmailKey(s: string): (r: string)
    ensures |r| <= |s|
  {
    ToLower(Trim(s))
  }

  /** `value ? parseInt(value, 10) : 0`; `None` is NaN. */
  function IntOrZero(v: JsValue): (r: Option<int>)
    ensures !Truthy(v) ==> r == Some(0)
    ensures v.Num? ==> r == Some(v.n)
  {
    if Truthy(v) then ParseIntValue(v) else Some(0)
  }

  predicate AtIndex(n: int, a: Account)
  {
    a.accountIndex == n
  }

  /** `findOne({ account_index })` / `updateOne({ account_index }, ...)`. */
  function FindIndex(rows: seq<Account>, n: int): (r: Option<nat>)
    ensures r.Some? ==> r.value < |rows| && rows[r.value].accountIndex == n
    ensures r.None? ==> forall j :: 0 <= j < |rows| ==> rows[j].accountIndex != n
  {
    FirstIndex(rows, a => AtIndex(n, a))
  }

  // ---------------------------------------------------------------------
  // POST /api/sales-nav-accounts/create
  // ---------------------------------------------------------------------

  /** The create body; an empty `name` or `email` is a missing one. */
  datatype CreateRequest = CreateRequest(
    name: string, email: string, password: Option<string>, profileUrn: Option<string>,
    twoFaAuthToken: Option<string>, cookiePath: Option<string>, proxy: Option<ProxyInput>,
    linkedinProfileUrl: Option<string>, location: Option<string>, accountYear: Option<string>,
    connectionCount: JsValue, recoveryEmail: Option<string>)

  /** `/^[^\s@]+@[^\s@]+\.[^\s@]+$/`: no white space, exactly one `@` with
      something before it, and after it a `.` with something on both sides. */
  predicate AccountEmailFormat(e: string)
  {
    (forall k :: 0 <= k < |e| ==> !IsSpace(e[k])) &&
    exists i, j :: 0 < i && i + 1 < j && j + 1 < |e| && e[i] == '@' && e[j] == '.' &&
      forall k :: 0 <= k < |e| && k != i ==> e[k] != '@'
  }

  /** `s.replace(/\s+/g, '')`. */
  function RemoveSpaces(s: string): (r: string)
    ensures |r| <= |s|
    ensures forall k :: 0 <= k < |r| ==> !IsSpace(r[k])
  {
    if |s| == 0 then ""
    else (if IsSpace(s[0]) then "" else [s[0]]) + RemoveSpaces(s[1..])
  }

  /** The largest `account_index` in use. */
  function MaxIndex(rows: seq<Account>): (m: int)
    requires |rows| > 0
    ensures forall j :: 0 <= j < |rows| ==> rows[j].accountIndex <= m
    ensures exists j :: 0 <= j < |rows| && rows[j].accountIndex == m
  {
    if |rows| == 1 then rows[0].accountIndex
    else
      var rest := MaxIndex(rows[1..]);
      assert forall j :: 1 <= j < |rows| ==> rows[j] == rows[1..][j - 1];
      if rows[0].accountIndex >= rest then rows[0].accountIndex else rest
  }

  /** The index a new account gets: one past the largest, or 0 in an
      empty collection. */
  function NextIndex(rows: seq<Account>): (n: int)
    ensures |rows| == 0 ==> n == 0
    ensures forall j :: 0 <= j < |rows| ==> rows[j].accountIndex < n
    ensures |rows| > 0 ==> exists j :: 0 <= j < |rows| && rows[j].accountIndex == n - 1
  {
    if |rows| == 0 then 0 else MaxIndex(rows) + 1
  }

  /** The document inserted for a valid request. */
  function NewAccount(req: CreateRequest, index: int, secret: Secret, now: int): Account
  {
    var p := if req.proxy.Some? then req.proxy.value else ProxyInput(None, Undefined, None, None);
    Account(
      index, Trim(req.name), EmailKey(req.email), TrimOrEmpty(req.profileUrn), secret,
      TrimOrEmpty(req.twoFaAuthToken),
      if TrimOrEmpty(req.cookiePath) != "" then TrimOrEmpty(req.cookiePath)
      else "./cookie-jar/cookies-" + RemoveSpaces(req.name) + ".json",
      Some(Proxy(TrimOrEmpty(p.host), IntOrZero(p.port), TrimOrEmpty(p.username), TrimOrEmpty(p.password))),
      TrimOrEmpty(req.linkedinProfileUrl), TrimOrEmpty(req.location), TrimOrEmpty(req.accountYear),
      IntOrZero(req.connectionCount), TrimOrEmpty(req.recoveryEmail),
      true, "available", false, 0, 0, 0, 20000, false, "", false, 0, "", false, now, now)
  }

  datatype CreateResponse =
    | NameOrEmailMissing     // 400
    | BadEmailFormat         // 400
    | EmailExists            // 400
    | CreateEncryptionFailed // 500
    | Created(accountIndex: int, name: string, email: string, active: bool)

  datatype CreateOutcome = CreateOutcome(response: CreateResponse, rows: seq<Account>)

  /** Whether a password was given that must be encrypted. */
  predicate HasPassword(p: Option<string>)
  {
    p.Some? && Trim(p.value) != ""
  }

  /** The create route as a function of the snapshot. */
  function Create(rows: seq<Account>, req: CreateRequest, keyOk: bool, now: int): (o: CreateOutcome)
    ensures !o.response.Created? ==> o.rows == rows
    ensures o.response.Created? ==> |o.rows| == |rows| + 1 && o.rows[..|rows|] == rows
  {
    if req.name == "" || req.email == "" then CreateOutcome(NameOrEmailMissing, rows)
    else if !AccountEmailFormat(req.email) then CreateOutcome(BadEmailFormat, rows)
    else if exists j :: 0 <= j < |rows| && rows[j].email == req.email then CreateOutcome(EmailExists, rows)
    else if HasPassword(req.password) && !keyOk then CreateOutcome(CreateEncryptionFailed, rows)
    else
      var secret := if HasPassword(req.password) then Encrypted(req.password.value) else NoSecret;
      var a := NewAccount(req, NextIndex(rows), secret, now);
      CreateOutcome(Created(a.accountIndex, a.name, a.email, a.active), rows + [a])
  }

  /** A missing name or email, or a malformed email, is refused with 400
      and nothing is inserted. */
  lemma CreateRejectsBadBody(rows: seq<Account>, req: CreateRequest, keyOk: bool, now: int)
    requires req.name == "" || req.email == "" || !AccountEmailFormat(req.email)
    ensures var o := Create(rows, req, keyOk, now);
      (o.response == NameOrEmailMissing || o.response == BadEmailFormat) && o.rows == rows
  {
  }

  /** The email format in examples: one `@`, a dot after it, no blanks. */
  lemma EmailFormatExamples()
    ensures AccountEmailFormat("ops@acme.io")
    ensures !AccountEmailFormat("ops@acme")
    ensures !AccountEmailFormat("a@b@c.io")
    ensures !AccountEmailFormat("ops @acme.io")
  {
    var e := "ops@acme.io";
    assert e[3] == '@' && e[8] == '.';
    var f := "ops@acme";
    forall i, j | 0 < i && i + 1 < j && j + 1 < |f| && f[i] == '@'
      ensures f[j] != '.'
    {
    }
    var g := "a@b@c.io";
    forall i | 0 < i < |g| && g[i] == '@'
      ensures exists k :: 0 <= k < |g| && k != i && g[k] == '@'
    {
      if i == 1 { assert g[3] == '@'; } else { assert g[1] == '@'; }
    }
    assert IsSpace("ops @acme.io"[3]);
  }

  /** A created account gets the next index, starts inactive and not
      disabled, `available`, with zeroed counters, and stores the trimmed
      name and the trimmed lower-cased email. */
  lemma CreateDefaults(rows: seq<Account>, req: CreateRequest, keyOk: bool, now: int)
    requires Create(rows, req, keyOk, now).response.Created?
    ensures var o := Create(rows, req, keyOk, now);
      var a := o.rows[|rows|];
      a.accountIndex == NextIndex(rows) && o.response.accountIndex == a.accountIndex &&
      (forall j :: 0 <= j < |rows| ==> rows[j].accountIndex < a.accountIndex) &&
      a.name == Trim(req.name) && a.email == EmailKey(req.email) &&
      !a.active && !a.permanentlyDisabled && a.status == "available" && a.isNew && !a.inCooldown &&
      a.hourlyRequests == 0 && a.dailyRequests == 0 && a.dailyFollowers == 0 && a.errorCount == 0 &&
      a.dailyFollowersLimit == 20000 &&
      (a.encryptedPassword.Encrypted? <==> HasPassword(req.password))
  {
  }

  /** Without a cookie path the default one embeds the name with every
      white-space character removed. */
  lemma DefaultCookiePath(rows: seq<Account>, req: CreateRequest, keyOk: bool, now: int)
    requires Create(rows, req, keyOk, now).response.Created?
    requires req.cookiePath.None?
    ensures var p := Create(rows, req, keyOk, now).rows[|rows|].cookiePath;
      p == "./cookie-jar/cookies-" + RemoveSpaces(req.name) + ".json" &&
      forall k :: 0 <= k < |p| ==> !IsSpace(p[k])
  {
    CookiePathHasNoSpace(RemoveSpaces(req.name));
  }

  lemma CookiePathHasNoSpace(n: string)
    requires forall k :: 0 <= k < |n| ==> !IsSpace(n[k])
    ensures var p := "./cookie-jar/cookies-" + n + ".json";
      forall k :: 0 <= k < |p| ==> !IsSpace(p[k])
  {
    var pre := "./cookie-jar/cookies-";
    var p := pre + n + ".json";
    forall k | 0 <= k < |p|
      ensures !IsSpace(p[k])
    {
      if k < |pre| {
        assert p[k] == pre[k];
      } else if k < |pre| + |n| {
        assert p[k] == n[k - |pre|];
      } else {
        assert p[k] == ".json"[k - |pre| - |n|];
      }
    }
  }

  /** The duplicate check compares the email as submitted while the store
      holds it lower-cased, so a capitalised variant of a stored address is
      inserted again: two accounts then hold the same address. */
  lemma CaseVariantDuplicate(a: Account, req: CreateRequest, now: int)
    requires a.email == "ops@acme.io"
    requires req == CreateRequest("Ops", "OPS@acme.io", None, None, None, None, None, None, None, None, Undefined, None)
    ensures var o := Create([a], req, true, now);
      o.response.Created? && o.rows[0].email == o.rows[1].email
  {
    CapitalisedAddress(req.email);
    assert req.email != a.email by { assert req.email[0] != a.email[0]; }
    assert !(exists j :: 0 <= j < |[a]| && [a][j].email == req.email);
    assert !HasPassword(req.password);
  }

  lemma CapitalisedAddress(e: string)
    requires e == "OPS@acme.io"
    ensures AccountEmailFormat(e) && EmailKey(e) == "ops@acme.io"
  {
    CapitalisedFormat(e);
    CapitalisedKey(e);
  }

  lemma CapitalisedFormat(e: string)
    requires e == "OPS@acme.io"
    ensures AccountEmailFormat(e)
  {
    assert forall k :: 0 <= k < |e| ==> !IsSpace(e[k]);
    assert forall k :: 0 <= k < |e| && k != 3 ==> e[k] != '@';
    assert e[3] == '@' && e[8] == '.';
  }

  lemma CapitalisedKey(e: string)
    requires e == "OPS@acme.io"
    ensures EmailKey(e) == "ops@acme.io"
  {
    TrimUnchanged(e);
    var l := ToLower(e);
    assert l[0] == 'o' && l[1] == 'p' && l[2] == 's';
    assert l[3..] == e[3..];
    assert l == [l[0], l[1], l[2]] + l[3..];
  }

  /** The handler: validate, find the next index, insert. */
  method CreateAccount(accounts: AccountCollection, req: CreateRequest, keyOk: bool, now: int)
    returns (resp: CreateResponse)
    modifies accounts
    ensures var o := Create(old(accounts.rows), req, keyOk, now);
      resp == o.response && accounts.rows == o.rows
  {
    if req.name == "" || req.email == "" {
      return NameOrEmailMissing;
    }
    if !AccountEmailFormat(req.email) {
      return BadEmailFormat;
    }
    if exists j :: 0 <= j < |accounts.rows| && accounts.rows[j].email == req.email {
      return EmailExists;
    }
    var nextIndex := NextIndex(accounts.rows);
    var secret := NoSecret;
    if HasPassword(req.password) {
      if !keyOk {
        return CreateEncryptionFailed;
      }
      secret := Encrypted(req.password.value);
    }
    var account := NewAccount(req, nextIndex, secret, now);
    accounts.rows := accounts.rows + [account];
    resp := Created(nextIndex, account.name, account.email, false);
  }

  // ---------------------------------------------------------------------
  // POST /api/sales-nav-accounts/update
  // ---------------------------------------------------------------------

  /** The update body. `proxy` is `None` when absent. A
      `permanently_disabled` field may be sent; it is destructured away and
      never read. */
  datatype UpdateRequest = UpdateRequest(
    accountIndex: JsValue, name: Option<string>, email: Option<string>, password: Option<string>,
    profileUrn: Option<string>, twoFaAuthToken: Option<string>, cookiePath: Option<string>,
    proxy: Option<ProxyInput>, linkedinProfileUrl: Option<string>, location: Option<string>,
    accountYear: Option<string>, connectionCount: JsValue, recoveryEmail: Option<string>,
    active: JsValue, permanentlyDisabled: JsValue)

  /** `new || old`: the new trimmed value unless empty. */
  function TrimmedOr(s: Option<string>, fallback: string): (r: string)
    ensures s.Some? && Trim(s.value) != "" ==> r == Trim(s.value)
    ensures !(s.Some? && Trim(s.value) != "") ==> r == fallback
  {
    if s.Some? && Trim(s.value) != "" then Trim(s.value) else fallback
  }

  /** The proxy written by an update: each sub-field is the new trimmed
      value if non-empty, else the stored one, else '' (0 for the port). */
  function MergeProxy(p: ProxyInput, existing: Option<Proxy>): (r: Proxy)
    ensures existing.None? ==>
      r.host == TrimOrEmpty(p.host) && r.username == TrimOrEmpty(p.username) && r.password == TrimOrEmpty(p.password)
    ensures !Truthy(p.port) ==> r.port == Some(if existing.Some? then OrZero(existing.value.port) else 0)
    ensures Truthy(p.port) ==> r.port == ParseIntValue(p.port)
  {
    var e := if existing.Some? then existing.value else Proxy("", None, "", "");
    Proxy(TrimmedOr(p.host, e.host),
          if Truthy(p.port) then ParseIntValue(p.port) else Some(OrZero(e.port)),
          TrimmedOr(p.username, e.username),
          TrimmedOr(p.password, e.password))
  }

  /** `parseInt(connection_count, 10) || 0`. */
  function CountOrZero(v: JsValue): (r: int)
    ensures v.Num? ==> r == v.n
    ensures !v.Num? && !v.Str? ==> r == 0
  {
    OrZero(ParseIntValue(v))
  }

  /** The `$set` of an update applied to the stored account. */
  function Updated(a: Account, req: UpdateRequest, now: int): Account
  {
    a.(name := if req.name.Some? then Trim(req.name.value) else a.name,
       email := if req.email.Some? then EmailKey(req.email.value) else a.email,
       profileUrn := if req.profileUrn.Some? then Trim(req.profileUrn.value) else a.profileUrn,
       twoFaAuthToken := if req.twoFaAuthToken.Some? then Trim(req.twoFaAuthToken.value) else a.twoFaAuthToken,
       cookiePath := if req.cookiePath.Some? then Trim(req.cookiePath.value) else a.cookiePath,
       linkedinProfileUrl := if req.linkedinProfileUrl.Some? then Trim(req.linkedinProfileUrl.value) else a.linkedinProfileUrl,
       location := if req.location.Some? then Trim(req.location.value) else a.location,
       accountYear := if req.accountYear.Some? then Trim(req.accountYear.value) else a.accountYear,
       connectionCount := if req.connectionCount.Undefined? then a.connectionCount else Some(CountOrZero(req.connectionCount)),
       recoveryEmail := if req.recoveryEmail.Some? then Trim(req.recoveryEmail.value) else a.recoveryEmail,
       active := if req.active.Bool? then req.active.b else a.active,
       proxy := if req.proxy.Some? then Some(MergeProxy(req.proxy.value, a.proxy)) else a.proxy,
       encryptedPassword := if HasPassword(req.password) then Encrypted(req.password.value) else a.encryptedPassword,
       updatedAt := now)
  }

  datatype UpdateResponse =
    | IndexRequired          // 400 'Account index is required'
    | AccountNotFound        // 404
    | EmailTaken             // 400 'This email is already used by another account'
    | UpdateEncryptionFailed // 500
    | AccountUpdated(accountIndex: int)

  datatype UpdateOutcome = UpdateOutcome(response: UpdateResponse, rows: seq<Account>)

  /** Another account (a different index) already holds the normalised
      address, which differs from the account's own. */
  predicate EmailTakenBy(rows: seq<Account>, a: Account, email: Option<string>)
  {
    email.Some? && email.value != "" && EmailKey(email.value) != a.email &&
    exists j :: 0 <= j < |rows| && rows[j].email == EmailKey(email.value) && rows[j].accountIndex != a.accountIndex
  }

  /** The update route as a function of the snapshot. */
  function Update(rows: seq<Account>, req: UpdateRequest, keyOk: bool, now: int): (o: UpdateOutcome)
    ensures !o.response.AccountUpdated? ==> o.rows == rows
    ensures o.response.AccountUpdated? ==> |o.rows| == |rows|
  {
    if !IsNumber(req.accountIndex) then UpdateOutcome(IndexRequired, rows)
    else if req.accountIndex.PosInf? then UpdateOutcome(AccountNotFound, rows)
    else
      match FindIndex(rows, req.accountIndex.n)
      case None => UpdateOutcome(AccountNotFound, rows)
      case Some(i) =>
        if EmailTakenBy(rows, rows[i], req.email) then UpdateOutcome(EmailTaken, rows)
        else if HasPassword(req.password) && !keyOk then UpdateOutcome(UpdateEncryptionFailed, rows)
        else UpdateOutcome(AccountUpdated(req.accountIndex.n), rows[i := Updated(rows[i], req, now)])
  }

  /** A non-numeric index is refused with 400 and an unknown one with 404,
      both before any write. */
  lemma UpdateRejectsIndex(rows: seq<Account>, req: UpdateRequest, keyOk: bool, now: int)
    requires !IsNumber(req.accountIndex) ||
      (req.accountIndex.Num? && forall j :: 0 <= j < |rows| ==> rows[j].accountIndex != req.accountIndex.n)
    ensures var o := Update(rows, req, keyOk, now);
      o.rows == rows &&
      (!IsNumber(req.accountIndex) ==> o.response == IndexRequired) &&
      (IsNumber(req.accountIndex) ==> o.response == AccountNotFound)
  {
  }

  /** Moving an account to an address another index holds is refused with
      400 and nothing is written; the comparison is on the trimmed,
      lower-cased address. */
  lemma UpdateRejectsTakenEmail(rows: seq<Account>, req: UpdateRequest, keyOk: bool, now: int, i: nat, j: nat)
    requires req.accountIndex.Num? && FindIndex(rows, req.accountIndex.n) == Some(i)
    requires req.email.Some? && req.email.value != "" && EmailKey(req.email.value) != rows[i].email
    requires j < |rows| && rows[j].email == EmailKey(req.email.value) && rows[j].accountIndex != req.accountIndex.n
    ensures Update(rows, req, keyOk, now) == UpdateOutcome(EmailTaken, rows)
  {
  }

  /** Only the fields the body carries change, plus `updated_at`: each
      string field is the trimmed new value when given and the stored one
      when absent, and the index, `permanently_disabled`, the status, the
      counters, the cooldown and the error fields never change. */
  lemma UpdateOnlyGivenFields(rows: seq<Account>, req: UpdateRequest, keyOk: bool, now: int)
    requires Update(rows, req, keyOk, now).response.AccountUpdated?
    ensures var i := FindIndex(rows, req.accountIndex.n).value;
      var a := rows[i];
      var u := Update(rows, req, keyOk, now).rows[i];
      Update(rows, req, keyOk, now).rows == rows[i := u] &&
      u.(name := a.name, email := a.email, profileUrn := a.profileUrn, twoFaAuthToken := a.twoFaAuthToken,
         cookiePath := a.cookiePath, linkedinProfileUrl := a.linkedinProfileUrl, location := a.location,
         accountYear := a.accountYear, connectionCount := a.connectionCount, recoveryEmail := a.recoveryEmail,
         active := a.active, proxy := a.proxy, encryptedPassword := a.encryptedPassword,
         updatedAt := a.updatedAt) == a &&
      u.updatedAt == now
    ensures var i := FindIndex(rows, req.accountIndex.n).value;
      var a := rows[i];
      var u := Update(rows, req, keyOk, now).rows[i];
      GivenOrKept(req.name, Trim, u.name, a.name) &&
      GivenOrKept(req.email, EmailKey, u.email, a.email) &&
      GivenOrKept(req.profileUrn, Trim, u.profileUrn, a.profileUrn) &&
      GivenOrKept(req.twoFaAuthToken, Trim, u.twoFaAuthToken, a.twoFaAuthToken) &&
      GivenOrKept(req.cookiePath, Trim, u.cookiePath, a.cookiePath) &&
      GivenOrKept(req.linkedinProfileUrl, Trim, u.linkedinProfileUrl, a.linkedinProfileUrl) &&
      GivenOrKept(req.location, Trim, u.location, a.location) &&
      GivenOrKept(req.accountYear, Trim, u.accountYear, a.accountYear) &&
      GivenOrKept(req.recoveryEmail, Trim, u.recoveryEmail, a.recoveryEmail)
    ensures var i := FindIndex(rows, req.accountIndex.n).value;
      var a := rows[i];
      var u := Update(rows, req, keyOk, now).rows[i];
      (req.proxy.None? ==> u.proxy == a.proxy) &&
      (req.proxy.Some? ==> u.proxy == Some(MergeProxy(req.proxy.value, a.proxy))) &&
      (req.connectionCount.Undefined? ==> u.connectionCount == a.connectionCount) &&
      (req.connectionCount.Num? ==> u.connectionCount == Some(req.connectionCount.n)) &&
      (!req.connectionCount.Undefined? && !req.connectionCount.Num? && !req.connectionCount.Str? ==>
        u.connectionCount == Some(0)) &&
      (req.active.Bool? ==> u.active == req.active.b) &&
      (!req.active.Bool? ==> u.active == a.active) &&
      (HasPassword(req.password) ==> u.encryptedPassword == Encrypted(req.password.value)) &&
      (!HasPassword(req.password) ==> u.encryptedPassword == a.encryptedPassword)
  {
    var i := FindIndex(rows, req.accountIndex.n).value;
    assert Update(rows, req, keyOk, now).rows == rows[i := Updated(rows[i], req, now)];
    UpdatedFrame(rows[i], req, now);
    UpdatedStrings(rows[i], req, now);
  }

  lemma UpdatedFrame(a: Account, req: UpdateRequest, now: int)
    ensures var u := Updated(a, req, now);
      u.(name := a.name, email := a.email, profileUrn := a.profileUrn, twoFaAuthToken := a.twoFaAuthToken,
         cookiePath := a.cookiePath, linkedinProfileUrl := a.linkedinProfileUrl, location := a.location,
         accountYear := a.accountYear, connectionCount := a.connectionCount, recoveryEmail := a.recoveryEmail,
         active := a.active, proxy := a.proxy, encryptedPassword := a.encryptedPassword,
         updatedAt := a.updatedAt) == a
  {
  }

  lemma UpdatedStrings(a: Account, req: UpdateRequest, now: int)
    ensures var u := Updated(a, req, now);
      GivenOrKept(req.name, Trim, u.name, a.name) &&
      GivenOrKept(req.email, EmailKey, u.email, a.email) &&
      GivenOrKept(req.profileUrn, Trim, u.profileUrn, a.profileUrn) &&
      GivenOrKept(req.twoFaAuthToken, Trim, u.twoFaAuthToken, a.twoFaAuthToken) &&
      GivenOrKept(req.cookiePath, Trim, u.cookiePath, a.cookiePath) &&
      GivenOrKept(req.linkedinProfileUrl, Trim, u.linkedinProfileUrl, a.linkedinProfileUrl) &&
      GivenOrKept(req.location, Trim, u.location, a.location) &&
      GivenOrKept(req.accountYear, Trim, u.accountYear, a.accountYear) &&
      GivenOrKept(req.recoveryEmail, Trim, u.recoveryEmail, a.recoveryEmail)
  {
  }

  /** A string field of an update: the new value, normalised by `f`, when
      the body carries it, the stored one when absent. */
  predicate GivenOrKept(given: Option<string>, f: string -> string, now: string, stored: string)
  {
    (given.Some? ==> now == f(given.value)) && (given.None? ==> now == stored)
  }

  /** Sending `permanently_disabled` makes no difference at all. */
  lemma PermanentlyDisabledIgnored(rows: seq<Account>, req: UpdateRequest, keyOk: bool, now: int, v: JsValue)
    ensures Update(rows, req.(permanentlyDisabled := v), keyOk, now)
         == Update(rows, req, keyOk, now)
  {
  }

  /** The proxy merge: a blank new sub-field keeps the stored one. */
  lemma ProxyKeepsStored(p: ProxyInput, stored: Proxy)
    requires p.host.None? || Trim(p.host.value) == ""
    requires !Truthy(p.port)
    ensures MergeProxy(p, Some(stored)).host == stored.host
    ensures MergeProxy(p, Some(stored)).port == Some(OrZero(stored.port))
  {
  }

  /** The handler: the fields to set are collected one at a time, then
      written to the account. */
  method UpdateAccount(accounts: AccountCollection, req: UpdateRequest, keyOk: bool, now: int)
    returns (resp: UpdateResponse)
    modifies accounts
    ensures var o := Update(old(accounts.rows), req, keyOk, now);
      resp == o.response && accounts.rows == o.rows
  {
    if !IsNumber(req.accountIndex) {
      return IndexRequired;
    }
    if req.accountIndex.PosInf? {
      return AccountNotFound;
    }
    var index := req.accountIndex.n;
    var found := FindIndex(accounts.rows, index);
    if found.None? {
      return AccountNotFound;
    }
    var i := found.value;
    var existing := accounts.rows[i];
    if EmailTakenBy(accounts.rows, existing, req.email) {
      return EmailTaken;
    }
    // The fields to set, one at a time; a field left as stored is not set.
    var name, email, profileUrn, twoFa, cookiePath := existing.name, existing.email, existing.profileUrn,
      existing.twoFaAuthToken, existing.cookiePath;
    var profileUrl, location, accountYear, recoveryEmail := existing.linkedinProfileUrl, existing.location,
      existing.accountYear, existing.recoveryEmail;
    var connectionCount, active, proxy, secret := existing.connectionCount, existing.active, existing.proxy,
      existing.encryptedPassword;
    if req.name.Some? { name := Trim(req.name.value); }
    if req.email.Some? { email := EmailKey(req.email.value); }
    if req.profileUrn.Some? { profileUrn := Trim(req.profileUrn.value); }
    if req.twoFaAuthToken.Some? { twoFa := Trim(req.twoFaAuthToken.value); }
    if req.cookiePath.Some? { cookiePath := Trim(req.cookiePath.value); }
    if req.linkedinProfileUrl.Some? { profileUrl := Trim(req.linkedinProfileUrl.value); }
    if req.location.Some? { location := Trim(req.location.value); }
    if req.accountYear.Some? { accountYear := Trim(req.accountYear.value); }
    if !req.connectionCount.Undefined? { connectionCount := Some(CountOrZero(req.connectionCount)); }
    if req.recoveryEmail.Some? { recoveryEmail := Trim(req.recoveryEmail.value); }
    if req.active.Bool? { active := req.active.b; }
    if req.proxy.Some? { proxy := Some(MergeProxy(req.proxy.value, existing.proxy)); }
    if HasPassword(req.password) {
      if !keyOk {
        return UpdateEncryptionFailed;
      }
      secret := Encrypted(req.password.value);
    }
    var u := existing.(name := name, email := email, profileUrn := profileUrn, twoFaAuthToken := twoFa,
      cookiePath := cookiePath, linkedinProfileUrl := profileUrl, location := location,
      accountYear := accountYear, connectionCount := connectionCount, recoveryEmail := recoveryEmail,
      active := active, proxy := proxy, encryptedPassword := secret, updatedAt := now);
    accounts.rows := accounts.rows[i := u];
    resp := AccountUpdated(index);
  }
}

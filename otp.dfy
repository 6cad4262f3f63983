/**
  The one-time-password store behind the e-mail login (the `otps`
  collection) and the sanitiser of the code input box.

  Issuing a code for an e-mail address removes every code stored for that
  address and stores one new six-digit code that expires five minutes
  later. Verifying looks the exact code up for the address; an expired
  code is deleted on that lookup. Addresses are normalised (lower-cased,
  then trimmed) on both paths.

  The random draw (`crypto.randomInt`) and the clock are parameters.
*/
module Otp {
  import opened Common

  /** Five minutes, in milliseconds. */
  const ValidityMs: int := 5 * 60 * 1000

  /** An `otps` document; times are milliseconds since the epoch. */
  datatype OtpRecord = OtpRecord(email: string, otp: string, expiresAt: int)

  /** `email.toLowerCase().trim()`. */
  function Normalise(email: string): (r: string)
    ensures |r| > 0 ==> !IsSpace(r[0]) && !IsSpace(r[|r| - 1])
    ensures forall i :: 0 <= i < |r| ==> !IsUpper(r[i])
  {
    TrimKeepsLower(ToLower(email));
    Trim(ToLower(email))
  }

  /** Trimming only drops characters, so a string without capitals stays so. */
  lemma TrimKeepsLower(lower: string)
    requires forall i :: 0 <= i < |lower| ==> !IsUpper(lower[i])
    ensures forall i :: 0 <= i < |Trim(lower)| ==> !IsUpper(Trim(lower)[i])
  {
    var s := TrimStart(lower);
    var r := TrimEnd(s);
    forall i | 0 <= i < |r|
      ensures !IsUpper(r[i])
    {
      assert r[i] == s[i];
      assert s[i] == lower[|lower| - |s| + i];
    }
  }

  /** Normalising twice changes nothing more. */
  lemma NormaliseIdempotent(email: string)
    ensures Normalise(Normalise(email)) == Normalise(email)
  {
    var n := Normalise(email);
    assert ToLower(n) == n;
    if |n| > 0 {
      TrimUnchanged(n);
    }
  }

  /** The schema's `match: /^\S+@\S+\.\S+$/`: no white space, an `@` with
      something before it, and a `.` with something on both sides after it. */
  predicate SchemaEmail(e: string)
  {
    (forall k :: 0 <= k < |e| ==> !IsSpace(e[k])) &&
    exists i, j :: 0 < i && i + 1 < j && j + 1 < |e| && e[i] == '@' && e[j] == '.'
  }

  // ---------------------------------------------------------------------
  // generateOTP
  // ---------------------------------------------------------------------

  /** `crypto.randomInt(100000, 999999).toString()`, the draw `n` being a
      parameter; the upper bound of `randomInt` is exclusive. */
  function CodeText(n: int): (code: string)
    requires 100000 <= n < 999999
    ensures |code| == 6
    ensures forall i :: 0 <= i < 6 ==> IsDigit(code[i])
    ensures code[0] != '0'
    ensures DigitsValue(code) == n
  {
    SixDigits(n);
    DigitsValueOfNatToString(n);
    NatToString(n)
  }

  lemma {:induction false} NatToStringLength(n: nat, d: nat)
    requires d >= 1
    requires Power10(d - 1) <= n < Power10(d) || (d == 1 && n < 10)
    ensures |NatToString(n)| == d
    decreases d
  {
    if n >= 10 {
      assert d > 1;
      NatToStringLength(n / 10, d - 1);
    }
  }

  function Power10(d: nat): (p: nat)
    ensures p >= 1
  {
    if d == 0 then 1 else 10 * Power10(d - 1)
  }

  lemma SixDigits(n: nat)
    requires 100000 <= n < 1000000
    ensures |NatToString(n)| == 6
  {
    assert Power10(5) == 100000 && Power10(6) == 1000000;
    NatToStringLength(n, 6);
  }

  // ---------------------------------------------------------------------
  // The store
  // ---------------------------------------------------------------------

  predicate ForEmail(e: string, r: OtpRecord)
  {
    r.email == e
  }

  /** The records of other addresses, in order: what `deleteMany` leaves. */
  function Without(records: seq<OtpRecord>, e: string): (r: seq<OtpRecord>)
    ensures forall k :: 0 <= k < |r| ==> r[k] in records && r[k].email != e
    ensures forall x :: x in records && x.email != e ==> x in r
  {
    if |records| == 0 then []
    else if records[0].email == e then Without(records[1..], e)
    else [records[0]] + Without(records[1..], e)
  }

  /** The number of records held for `e`. */
  function CountFor(records: seq<OtpRecord>, e: string): nat
  {
    if |records| == 0 then 0
    else (if records[0].email == e then 1 else 0) + CountFor(records[1..], e)
  }

  lemma {:induction false} CountWithout(records: seq<OtpRecord>, e: string, x: string)
    ensures CountFor(Without(records, e), x) == if x == e then 0 else CountFor(records, x)
  {
    if |records| > 0 {
      CountWithout(records[1..], e, x);
      if records[0].email != e {
        assert ([records[0]] + Without(records[1..], e))[1..] == Without(records[1..], e);
      }
    }
  }

  lemma {:induction false} CountAppend(records: seq<OtpRecord>, r: OtpRecord, x: string)
    ensures CountFor(records + [r], x) == CountFor(records, x) + (if r.email == x then 1 else 0)
  {
    if |records| > 0 {
      assert (records + [r])[1..] == records[1..] + [r];
      CountAppend(records[1..], r, x);
    } else {
      assert records + [r] == [r];
    }
  }

  /** Deleting every record of `e` and appending at most one new record
      for `e` leaves `e` with exactly the new records and every other
      address untouched. */
  lemma CountsAfterGenerate(records: seq<OtpRecord>, e: string, added: seq<OtpRecord>)
    requires added == [] || (|added| == 1 && added[0].email == e)
    ensures forall x ::
      CountFor(Without(records, e) + added, x) == if x == e then |added| else CountFor(records, x)
  {
    forall x
      ensures CountFor(Without(records, e) + added, x) == if x == e then |added| else CountFor(records, x)
    {
      CountWithout(records, e, x);
      if added == [] {
        assert Without(records, e) + added == Without(records, e);
      } else {
        assert added == [added[0]];
        CountAppend(Without(records, e), added[0], x);
      }
    }
  }

  /** `findOne({ email, otp })`: the first record with both. */
  function Find(records: seq<OtpRecord>, e: string, code: string): (r: Option<nat>)
    ensures r.Some? ==> r.value < |records| && records[r.value].email == e && records[r.value].otp == code
    ensures r.None? ==> forall k :: 0 <= k < |records| ==> !(records[k].email == e && records[k].otp == code)
  {
    if |records| == 0 then None
    else if records[0].email == e && records[0].otp == code then Some(0)
    else
      match Find(records[1..], e, code)
      case None => None
      case Some(k) => Some(k + 1)
  }

  /** Removing the record at position `i` (`otpDoc.deleteOne()`). */
  function RemoveAt(records: seq<OtpRecord>, i: nat): (r: seq<OtpRecord>)
    requires i < |records|
    ensures |r| == |records| - 1
    ensures multiset(r) + multiset{records[i]} == multiset(records)
  {
    assert records == records[..i] + [records[i]] + records[i + 1..];
    records[..i] + records[i + 1..]
  }

  /** What `get` decides for a code found at position `i`: valid up to and
      including its expiry instant. */
  predicate Expired(r: OtpRecord, now: int)
  {
    now > r.expiresAt
  }

  class OtpStore {
    var records: seq<OtpRecord>

    constructor ()
      ensures records == []
    {
      records := [];
    }

    /** `findAndGenerateOTP`: delete every code of the normalised address,
        then create the new one. The create is refused by the schema when
        the address does not match its pattern; the deletion has happened
        by then. `draw` is the value `crypto.randomInt` returned. */
    method FindAndGenerate(email: string, draw: int, now: int) returns (code: Option<string>)
      requires 100000 <= draw < 999999
      modifies this
      ensures var e := Normalise(email);
        code == (if SchemaEmail(e) then Some(CodeText(draw)) else None) &&
        records == Without(old(records), e) + (if SchemaEmail(e) then [OtpRecord(e, CodeText(draw), now + ValidityMs)] else [])
      ensures var e := Normalise(email);
        CountFor(records, e) == (if SchemaEmail(e) then 1 else 0)
      ensures forall x :: x != Normalise(email) ==> CountFor(records, x) == CountFor(old(records), x)
    {
      var e := Normalise(email);
      var otp := CodeText(draw);
      var added: seq<OtpRecord> := [];
      if SchemaEmail(e) {
        added := [OtpRecord(e, otp, now + ValidityMs)];
        code := Some(otp);
      } else {
        code := None;
      }
      CountsAfterGenerate(records, e, added);
      records := Without(records, e) + added;
    }

    /** `get`: the record holding exactly `otp` for the normalised address,
        unless it has expired, in which case it is deleted. */
    method Get(email: string, otp: string, now: int) returns (found: Option<OtpRecord>)
      modifies this
      ensures var i := Find(old(records), Normalise(email), otp);
        (i.None? ==> found.None? && records == old(records)) &&
        (i.Some? && Expired(old(records)[i.value], now) ==>
          found.None? && records == RemoveAt(old(records), i.value)) &&
        (i.Some? && !Expired(old(records)[i.value], now) ==>
          found == Some(old(records)[i.value]) && records == old(records))
      ensures found.Some? ==>
        found.value.email == Normalise(email) && found.value.otp == otp && now <= found.value.expiresAt
    {
      var e := Normalise(email);
      var i := Find(records, e, otp);
      if i.None? {
        return None;
      }
      var doc := records[i.value];
      if now > doc.expiresAt {
        records := RemoveAt(records, i.value);
        return None;
      }
      found := Some(doc);
    }
  }

  /** A code just issued is found again, from any spelling of the address
      with the same normalisation, until its expiry instant inclusive, and
      is expired one millisecond later. */
  lemma IssuedCodeLifetime(records: seq<OtpRecord>, email: string, other: string, draw: int, now: int, t: int)
    requires 100000 <= draw < 999999
    requires SchemaEmail(Normalise(email)) && Normalise(other) == Normalise(email)
    ensures var e := Normalise(email);
      var after := Without(records, e) + [OtpRecord(e, CodeText(draw), now + ValidityMs)];
      var i := Find(after, Normalise(other), CodeText(draw));
      i == Some(|after| - 1) &&
      (t <= now + 300000 <==> !Expired(after[i.value], t))
  {
    var e := Normalise(email);
    var kept := Without(records, e);
    var after := kept + [OtpRecord(e, CodeText(draw), now + ValidityMs)];
    FindLast(kept, OtpRecord(e, CodeText(draw), now + ValidityMs));
  }

  lemma {:induction false} FindLast(kept: seq<OtpRecord>, r: OtpRecord)
    requires forall k :: 0 <= k < |kept| ==> kept[k].email != r.email
    ensures Find(kept + [r], r.email, r.otp) == Some(|kept|)
  {
    if |kept| > 0 {
      assert (kept + [r])[1..] == kept[1..] + [r];
      FindLast(kept[1..], r);
    }
  }

  /** A wrong code finds nothing: `get` returns null and the store keeps
      every record. */
  lemma WrongCodeFindsNothing(records: seq<OtpRecord>, e: string, code: string)
    requires forall k :: 0 <= k < |records| && records[k].email == e ==> records[k].otp != code
    ensures Find(records, e, code).None?
  {
  }
}

/**
  The code input box of the login form: the slots it shows for the current
  value, how it cleans what is typed, and what it reports to its owner. The
  box is controlled: it never changes `value` itself, it only asks its
  owner to, so each handler is modelled by what it emits (`None` when it
  emits nothing).
*/
module OtpInput {
  import opened Common

  /** The default `length`. */
  const DefaultLength: nat := 6

  /** `Array.from({ length }, (_, i) => value[i] ?? "")`: one slot per
      position, holding the character typed there or nothing. */
  function Digits(value: string, length: nat): (slots: seq<string>)
    ensures |slots| == length
    ensures forall i :: 0 <= i < length && i < |value| ==> slots[i] == [value[i]]
    ensures forall i :: |value| <= i < length ==> slots[i] == ""
  {
    seq(length, i requires 0 <= i < length => if i < |value| then [value[i]] else "")
  }

  /** The characters the box keeps: `[A-Z0-9]`. */
  predicate Kept(c: char)
  {
    IsUpper(c) || IsDigit(c)
  }

  predicate IsLetterOrDigit(c: char)
  {
    IsUpper(c) || IsLower(c) || IsDigit(c)
  }

  /** `s.toUpperCase().replace(/[^A-Z0-9]/g, "")`. */
  function Sanitise(s: string): (r: string)
    ensures |r| <= |s|
    ensures forall k :: 0 <= k < |r| ==> Kept(r[k])
  {
    if |s| == 0 then ""
    else
      var c := UpperChar(s[0]);
      (if Kept(c) then [c] else "") + Sanitise(s[1..])
  }

  /** The ASCII letters and digits of `s`, in order. */
  function LettersAndDigits(s: string): (r: string)
  {
    if |s| == 0 then ""
    else (if IsLetterOrDigit(s[0]) then [s[0]] else "") + LettersAndDigits(s[1..])
  }

  /** Sanitising keeps every letter and digit, upper-casing the lower-case
      letters, and drops everything else. */
  lemma {:induction false} SanitiseKeepsLettersAndDigits(s: string)
    ensures Sanitise(s) == ToUpper(LettersAndDigits(s))
  {
    if |s| > 0 {
      SanitiseKeepsLettersAndDigits(s[1..]);
      var head := if IsLetterOrDigit(s[0]) then [s[0]] else "";
      ToUpperConcat(head, LettersAndDigits(s[1..]));
    }
  }

  lemma ToUpperConcat(a: string, b: string)
    ensures ToUpper(a + b) == ToUpper(a) + ToUpper(b)
  {
  }

  /** A string the box would keep as it is. */
  lemma {:induction false} SanitiseKeptString(s: string)
    requires forall k :: 0 <= k < |s| ==> Kept(s[k])
    ensures Sanitise(s) == s
  {
    if |s| > 0 {
      SanitiseKeptString(s[1..]);
      assert [s[0]] + s[1..] == s;
    }
  }

  /** Cleaning a cleaned value changes nothing. */
  lemma SanitiseIdempotent(s: string)
    ensures Sanitise(Sanitise(s)) == Sanitise(s)
  {
    SanitiseKeptString(Sanitise(s));
  }

  /** `handleChange`: the cleaned text is reported when it fits in the box;
      a longer one is ignored and the value stays as it was. */
  function HandleChange(typed: string, length: nat): (emitted: Option<string>)
    ensures emitted.Some? <==> |Sanitise(typed)| <= length
    ensures emitted.Some? ==> emitted.value == Sanitise(typed)
    ensures emitted.Some? ==> forall k :: 0 <= k < |emitted.value| ==> Kept(emitted.value[k])
  {
    var cleaned := Sanitise(typed);
    if |cleaned| <= length then Some(cleaned) else None
  }

  /** `handleKeyDown`: Backspace in an empty box reports the empty value. */
  function HandleKeyDown(key: string, value: string): (emitted: Option<string>)
    ensures emitted.Some? <==> key == "Backspace" && value == ""
    ensures emitted.Some? ==> emitted.value == ""
  {
    if key == "Backspace" && value == "" then Some("") else None
  }

  /** A value reported by the box fills at most `length` slots and shows
      each of its characters in its own slot. */
  lemma EmittedValueFits(typed: string, length: nat, k: nat)
    requires HandleChange(typed, length).Some? && k < length
    ensures var v := HandleChange(typed, length).value;
      |Digits(v, length)| == length &&
      (k < |v| ==> Digits(v, length)[k] == [v[k]] && Kept(v[k])) &&
      (k >= |v| ==> Digits(v, length)[k] == "")
  {
  }

  /** Typing lower-case letters yields their capitals: "ab-12" becomes "AB12". */
  lemma LowerCaseIsUpperCased()
    ensures HandleChange("ab-12", DefaultLength) == Some("AB12")
  {
    assert Sanitise("ab-12") == "AB12" by {
      assert Sanitise("") == "";
      assert Sanitise("2") == "2";
      assert Sanitise("12") == "12";
      assert Sanitise("-12") == "12";
      assert Sanitise("b-12") == "B12";
    }
  }
}

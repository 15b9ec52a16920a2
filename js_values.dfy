/**
 * The few JavaScript value rules the page script leans on: optional string
 * fields and their truthiness, the `a || b` fallback, the `\s` character
 * class used to strip phone numbers, and the decimal rendering of a
 * position number.
 */
module JsValues {

  /** An optional configuration field: `None` is a missing (undefined) field. */
  datatype Option<+T> = None | Some(value: T)

  /**
   * JavaScript truthiness of an optional string field: present and not the
   * empty string. An empty string behaves exactly like a missing field.
   */
  predicate Truthy(o: Option<string>)
  {
    o.Some? && o.value != ""
  }

  /** `o || fallback` for an optional string field. */
  function OrElse(o: Option<string>, fallback: string): string
  {
    if Truthy(o) then o.value else fallback
  }

  /**
   * Priority selection, the meaning of a chain `a || b || c`: the position
   * of the first truthy candidate, or `None` when every candidate is falsy.
   */
  function FirstTruthy(cs: seq<Option<string>>): (r: Option<nat>)
    ensures r.Some? ==> r.value < |cs| && Truthy(cs[r.value])
    ensures r.Some? ==> forall j :: 0 <= j < r.value ==> !Truthy(cs[j])
    ensures r.None? <==> forall j :: 0 <= j < |cs| ==> !Truthy(cs[j])
  {
    if cs == [] then None
    else if Truthy(cs[0]) then Some(0)
    else match FirstTruthy(cs[1..])
      case None => None
      case Some(i) => Some(i + 1)
  }

  /**
   * The string a DOM string attribute receives when assigned `o`:
   * a missing field is converted to the text "undefined".
   */
  function AssignedString(o: Option<string>): (r: string)
    ensures o.Some? ==> r == o.value
    ensures o.None? ==> r == "undefined"
  {
    match o
    case Some(s) => s
    case None => "undefined"
  }

  /** The characters matched by the regular-expression class `\s`. */
  predicate IsWhitespace(c: char)
  {
    c == ' ' || c == '\t' || c == '\n' || c == '\r' || c == '\U{B}' || c == '\U{C}'
    || c == '\U{A0}' || c == '\U{1680}' || ('\U{2000}' <= c <= '\U{200A}')
    || c == '\U{2028}' || c == '\U{2029}' || c == '\U{202F}' || c == '\U{205F}'
    || c == '\U{3000}' || c == '\U{FEFF}'
  }

  predicate NoWhitespace(s: string)
  {
    forall i :: 0 <= i < |s| ==> !IsWhitespace(s[i])
  }

  /**
   * `s.replace(/\s+/g, "")`: every maximal run of whitespace is replaced by
   * nothing, which is the same as dropping each whitespace character.
   */
  function StripWhitespace(s: string): (r: string)
    ensures NoWhitespace(r)
    ensures |r| <= |s|
  {
    if s == [] then []
    else if IsWhitespace(s[0]) then StripWhitespace(s[1..])
    else [s[0]] + StripWhitespace(s[1..])
  }

  /** Stripping one character followed by the rest. */
  lemma StripPrepend(c: char, s: string)
    ensures StripWhitespace([c] + s) == if IsWhitespace(c) then StripWhitespace(s) else [c] + StripWhitespace(s)
  {
    assert ([c] + s)[1..] == s;
  }

  /** A single `\s` character strips to nothing; any other character is kept. */
  lemma StripOneChar(c: char)
    ensures IsWhitespace(c) ==> StripWhitespace([c]) == ""
    ensures !IsWhitespace(c) ==> StripWhitespace([c]) == [c]
  {
    assert [c][1..] == [];
  }

  /** Stripping leaves a string without whitespace exactly as it was. */
  lemma {:induction false} StripKeepsClean(s: string)
    requires NoWhitespace(s)
    ensures StripWhitespace(s) == s
  {
    if s != [] {
      StripKeepsClean(s[1..]);
    }
  }

  /**
   * Stripping works character by character: stripping a concatenation is
   * the concatenation of the stripped parts. With `StripKeepsClean` and the
   * definition on one character this pins the result down completely.
   */
  lemma {:induction false} StripDistributes(a: string, b: string)
    ensures StripWhitespace(a + b) == StripWhitespace(a) + StripWhitespace(b)
  {
    if a == [] {
      assert a + b == b;
    } else {
      assert (a + b)[0] == a[0];
      assert (a + b)[1..] == a[1..] + b;
      StripDistributes(a[1..], b);
    }
  }

  /** Stripping twice is stripping once. */
  lemma StripIdempotent(s: string)
    ensures StripWhitespace(StripWhitespace(s)) == StripWhitespace(s)
  {
    StripKeepsClean(StripWhitespace(s));
  }

  /** A single space strips to nothing. */
  lemma StripSpace()
    ensures StripWhitespace(" ") == ""
  {
    StripPrepend(' ', []);
    assert [' '] + [] == " ";
  }

  /** The last two groups of the example phone number. */
  lemma StripPhoneExampleTail()
    ensures StripWhitespace("234 567") == "234567"
  {
    var a, b := "234", "567";
    assert "234 567" == (a + " ") + b;
    assert StripWhitespace(a) == a by { StripDigits(a); }
    assert StripWhitespace(b) == b by { StripDigits(b); }
    assert StripWhitespace(a + " ") == a by {
      StripDistributes(a, " ");
      StripSpace();
      assert a + "" == a;
    }
    StripDistributes(a + " ", b);
    assert a + b == "234567";
  }

  /** A run of decimal digits contains no whitespace, so stripping keeps it. */
  lemma StripDigits(s: string)
    requires forall i :: 0 <= i < |s| ==> '0' <= s[i] <= '9'
    ensures StripWhitespace(s) == s
  {
    StripKeepsClean(s);
  }

  /** Stripping "+1 234 567" gives "+1234567". */
  lemma StripPhoneExample()
    ensures StripWhitespace("+1 234 567") == "+1234567"
  {
    assert "+1 234 567" == "+1" + " " + "234 567";
    StripDistributes("+1" + " ", "234 567");
    StripDistributes("+1", " ");
    StripSpace();
    StripPhoneExampleTail();
    StripKeepsClean("+1");
    assert "+1" + "234567" == "+1234567";
  }

  /** The decimal digit for `d`. */
  function DigitChar(d: nat): char
    requires d < 10
  {
    "0123456789"[d]
  }

  predicate IsDigit(c: char)
  {
    '0' <= c <= '9'
  }

  /** The value of a decimal digit character; the inverse of `DigitChar`. */
  function DigitValue(c: char): nat
    requires IsDigit(c)
  {
    (c as int) - ('0' as int)
  }

  /** The decimal text of `n`, as `String(n)` renders a non-negative integer. */
  function NatToString(n: nat): (r: string)
    ensures |r| >= 1
    ensures forall i :: 0 <= i < |r| ==> IsDigit(r[i])
    ensures r[0] == '0' ==> n == 0
  {
    if n < 10 then [DigitChar(n)]
    else NatToString(n / 10) + [DigitChar(n % 10)]
  }

  /** The value of a string of decimal digits, read most significant first. */
  function DecimalValue(s: string): (v: nat)
    requires forall i :: 0 <= i < |s| ==> IsDigit(s[i])
  {
    if s == [] then 0
    else 10 * DecimalValue(s[..|s| - 1]) + DigitValue(s[|s| - 1])
  }

  /** Reading back the decimal text of `n` gives `n`. */
  lemma {:induction false} NatToStringRoundTrip(n: nat)
    ensures DecimalValue(NatToString(n)) == n
  {
    var r := NatToString(n);
    if n < 10 {
      assert r[..|r| - 1] == [];
    } else {
      assert r[..|r| - 1] == NatToString(n / 10);
      NatToStringRoundTrip(n / 10);
    }
  }
}

/** JavaScript's `parseInt(text, 10)` as the browser widgets use it on
    what the user typed: leading blanks skipped, an optional sign, then as
    many decimal digits as follow; no digit at all reads as `NaN`, here
    `None`. */
module JsNumbers {
  import opened Wrappers
  import Numerals
  import Text

  /** The length of the run of digits that starts `s`. */
  function DigitPrefix(s: string): (n: nat)
    ensures n <= |s|
    ensures Numerals.AllDigits(s[..n])
    ensures n < |s| ==> !Numerals.IsDigit(s[n])
    decreases |s|
  {
    if |s| > 0 && Numerals.IsDigit(s[0]) then
      var n := 1 + DigitPrefix(s[1..]);
      assert s[..n] == [s[0]] + s[1..][..n - 1];
      n
    else 0
  }

  /** `parseInt(s, 10)`. */
  function ParseInt(s: string): Option<int> {
    ParseSigned(Text.StripLeft(s))
  }

  /** The reading once the leading blanks are gone: `NaN` exactly when no
      digit follows the optional sign. */
  function ParseSigned(t: string): (r: Option<int>)
    ensures r.None? <==> (var u := if |t| > 0 && (t[0] == '-' || t[0] == '+') then t[1..] else t;
                          u == [] || !Numerals.IsDigit(u[0]))
  {
    var u := if |t| > 0 && (t[0] == '-' || t[0] == '+') then t[1..] else t;
    var k := DigitPrefix(u);
    if k == 0 then None
    else
      var v: int := Numerals.ParseNat(u[..k]);
      Some(if |t| > 0 && t[0] == '-' then -v else v)
  }

  /** Whatever follows a printed integer is ignored as long as it does not
      start with a digit: `parseInt("12px") == 12`, and a printed number
      reads back as itself. */
  lemma {:induction false} ParseIntText(n: int, rest: string)
    requires rest == [] || !Numerals.IsDigit(rest[0])
    ensures ParseInt(Numerals.IntText(n) + rest) == Some(n)
  {
    var m: nat := if n < 0 then -n else n;
    var sign := if n < 0 then "-" else "";
    var digits := Numerals.NatText(m);
    assert Numerals.IntText(n) == sign + digits;
    var s := sign + digits + rest;
    assert Numerals.IntText(n) + rest == s;
    assert s[0] == (if n < 0 then '-' else digits[0]);
    assert !Text.IsSpace(s[0]) by {
      if n >= 0 {
        assert Numerals.IsDigit(digits[0]);
      }
    }
    StripLeftNoSpace(s);
    ParseSignedDigits(sign, digits, rest);
    Numerals.ParseNatText(m);
  }

  /** An optional minus sign, a run of digits and a tail that does not
      start with a digit read as the signed value of the digits. */
  lemma {:induction false} ParseSignedDigits(sign: string, digits: string, rest: string)
    requires sign == "" || sign == "-"
    requires |digits| >= 1 && Numerals.AllDigits(digits)
    requires rest == [] || !Numerals.IsDigit(rest[0])
    ensures ParseSigned(sign + digits + rest)
         == Some(if sign == "-" then 0 - Numerals.ParseNat(digits) as int else Numerals.ParseNat(digits) as int)
  {
    var t := sign + digits + rest;
    var u := digits + rest;
    assert t[0] == (if sign == "-" then '-' else digits[0]);
    assert (if |t| > 0 && (t[0] == '-' || t[0] == '+') then t[1..] else t) == u;
    DigitRun(digits, rest);
    assert u[..|digits|] == digits;
  }

  /** Leading blanks are skipped. */
  lemma {:induction false} ParseIntBlanks(s: string)
    ensures ParseInt(" " + s) == ParseInt(s)
  {
    var t := " " + s;
    assert Text.StripLeft(t) == Text.StripLeft(s) by {
      assert t[1..] == s;
    }
  }

  lemma {:induction false} StripLeftNoSpace(s: string)
    requires |s| > 0 && !Text.IsSpace(s[0])
    ensures Text.StripLeft(s) == s
  {
  }

  lemma {:induction false} DigitRun(digits: string, rest: string)
    requires Numerals.AllDigits(digits)
    requires rest == [] || !Numerals.IsDigit(rest[0])
    ensures DigitPrefix(digits + rest) == |digits|
    decreases |digits|
  {
    if |digits| > 0 {
      assert (digits + rest)[1..] == digits[1..] + rest;
      DigitRun(digits[1..], rest);
    } else {
      assert digits + rest == rest;
    }
  }
}

/** String helpers shared by the hub model: Python's `startswith`/`endswith`,
    `str.isspace`, `str(int)`, and the URL helpers that the hub imports from
    modules outside this model, which are taken as parameters. */
module Text {
  import opened Wrappers

  /** `url_path_join(*pieces)`: its slash handling lives outside this model, so
      every caller receives it as a function value and nothing is known of it. */
  type UrlPathJoin = seq<string> -> string

  /** Tornado's `url_concat(url, args)`: appends query arguments to a URL. */
  type UrlConcat = (string, seq<(string, string)>) -> string

  /** Python's `s.startswith(p)`; true for the empty `p`. */
  predicate StartsWith(s: string, p: string) {
    |p| <= |s| && s[..|p|] == p
  }

  /** Python 3's `str.isspace()` for one character, which is also what `\s`
      matches in a `str` regular expression. */
  predicate IsSpace(c: char) {
    var k := c as int;
    (9 <= k <= 13) || (0x1c <= k <= 0x20) || k == 0x85 || k == 0xa0 || k == 0x1680
    || (0x2000 <= k <= 0x200a) || k == 0x2028 || k == 0x2029 || k == 0x202f
    || k == 0x205f || k == 0x3000
  }

  predicate AllSpace(s: string) {
    forall i :: 0 <= i < |s| ==> IsSpace(s[i])
  }

  predicate NoSpace(s: string) {
    forall i :: 0 <= i < |s| ==> !IsSpace(s[i])
  }

  predicate IsDigit(c: char) {
    '0' <= c <= '9'
  }

  predicate AllDigits(s: string) {
    forall i :: 0 <= i < |s| ==> IsDigit(s[i])
  }

  function DigitChar(d: nat): (c: char)
    requires d < 10
    ensures IsDigit(c) && c as int - '0' as int == d
  {
    ('0' as int + d) as char
  }

  /** The decimal digits of `n`, most significant first, without leading zeros. */
  function NatDigits(n: nat): (r: string)
    ensures r != [] && AllDigits(r)
    ensures n > 0 ==> r[0] != '0'
    ensures |r| > 1 ==> r[0] != '0'
    decreases n
  {
    if n < 10 then [DigitChar(n)] else NatDigits(n / 10) + [DigitChar(n % 10)]
  }

  /** Python's `str(n)` for an `int`: an optional minus sign, then the digits. */
  function DecimalString(n: int): (r: string)
    ensures r != [] && (r[0] == '-' <==> n < 0)
  {
    if n < 0 then "-" + NatDigits(-n) else NatDigits(n)
  }

  /** The value of a string of decimal digits (0 for the empty string). */
  function DigitsValue(s: string): nat
    requires AllDigits(s)
  {
    if s == [] then 0 else DigitsValue(s[..|s| - 1]) * 10 + (s[|s| - 1] as int - '0' as int)
  }

  /** A reference reading of decimal text, the inverse of `DecimalString`: an
      optional `-`, then one or more digits. */
  function ParseDecimal(s: string): Option<int> {
    if |s| > 0 && s[0] == '-' then
      if |s| > 1 && AllDigits(s[1..]) then var d: int := DigitsValue(s[1..]); Some(-d) else None
    else if |s| > 0 && AllDigits(s) then Some(DigitsValue(s))
    else None
  }

  lemma {:induction false} NatDigitsValue(n: nat)
    ensures NatDigits(n) != [] && AllDigits(NatDigits(n))
    ensures DigitsValue(NatDigits(n)) == n
    decreases n
  {
    if n >= 10 {
      NatDigitsValue(n / 10);
      var s := NatDigits(n);
      assert s[..|s| - 1] == NatDigits(n / 10);
    }
  }

  /** `str(n)` can be read back: distinct ports and status codes give distinct text. */
  lemma DecimalRoundTrip(n: int)
    ensures ParseDecimal(DecimalString(n)) == Some(n)
  {
    var s := DecimalString(n);
    if n < 0 {
      var d := NatDigits(-n);
      NatDigitsValue(-n);
      assert s == "-" + d;
      assert s[1..] == d;
      var v: int := DigitsValue(d);
      assert ParseDecimal(s) == Some(-v);
    } else {
      NatDigitsValue(n);
      assert IsDigit(s[0]);
      assert ParseDecimal(s) == Some(DigitsValue(s));
    }
  }
}

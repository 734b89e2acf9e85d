/** The handful of Python string built-ins the core relies on: `str.lower`,
    `str.endswith`, `str.join`, `str.split`, `int()` and decimal rendering. */
module Text {
  import opened Wrappers

  // ---------------------------------------------------------------------
  // str.lower(), as far as the bot's tokens need it
  // ---------------------------------------------------------------------

  /** U+212A KELVIN SIGN, the one non-ASCII character that `lower()` turns
      into a single ASCII letter (`k`). */
  const KelvinSign: char := '\U{212A}'

  /** Lower-cases Latin A-Z, the Kelvin sign, the Cyrillic capitals
      U+0410..U+042F (А..Я), U+0400..U+040F (Ѐ..Џ, which holds the Ukrainian
      І, Ї and Є) and Ґ. Every other character is returned unchanged. */
  function LowerChar(c: char): (r: char)
    ensures 'a' <= r <= 'z' ==> c == r || c == (r as int - 32) as char || (r == 'k' && c == KelvinSign)
  {
    if 'A' <= c <= 'Z' then (c as int + 32) as char
    else if c == KelvinSign then 'k'
    else if '\U{0410}' <= c <= '\U{042F}' then (c as int + 0x20) as char
    else if '\U{0400}' <= c <= '\U{040F}' then (c as int + 0x50) as char
    else if c == '\U{0490}' then '\U{0491}'
    else c
  }

  /** True of a character that `LowerChar` leaves as it is. */
  predicate IsLowerFixed(c: char) {
    LowerChar(c) == c
  }

  function Lower(s: string): (r: string)
    ensures |r| == |s|
    ensures forall i :: 0 <= i < |s| ==> r[i] == LowerChar(s[i])
  {
    seq(|s|, i requires 0 <= i < |s| => LowerChar(s[i]))
  }

  /** Lower-casing a lower-cased character changes nothing. */
  lemma LowerCharIdempotent(c: char)
    ensures LowerChar(LowerChar(c)) == LowerChar(c)
  {
  }

  lemma LowerIdempotent(s: string)
    ensures Lower(Lower(s)) == Lower(s)
  {
    forall i | 0 <= i < |s| ensures Lower(Lower(s))[i] == Lower(s)[i] {
      LowerCharIdempotent(s[i]);
    }
  }

  /** A string compares equal to an already lower-case token after `lower()`
      exactly when it matches the token character by character, each
      character either the token's own or the one capital that lowers to it. */
  lemma LowerMatchesToken(s: string, token: string)
    requires forall i :: 0 <= i < |token| ==> IsLowerFixed(token[i])
    ensures Lower(s) == token <==>
              |s| == |token| && forall i :: 0 <= i < |s| ==> LowerChar(s[i]) == token[i]
  {
    if |s| == |token| && forall i :: 0 <= i < |s| ==> LowerChar(s[i]) == token[i] {
      assert Lower(s) == token;
    }
  }

  /** A token of lower-case ASCII letters and underscores is its own
      lower-case form. */
  lemma LowerOfAsciiToken(s: string)
    requires forall i :: 0 <= i < |s| ==> 'a' <= s[i] <= 'z' || s[i] == '_'
    ensures Lower(s) == s
  {
  }

  // ---------------------------------------------------------------------
  // str.endswith, str.join, str.split
  // ---------------------------------------------------------------------

  predicate EndsWith(s: string, suffix: string) {
    |suffix| <= |s| && s[|s| - |suffix|..] == suffix
  }

  /** `sep.join(parts)`. */
  function Join(sep: string, parts: seq<string>): string
  {
    if |parts| == 0 then ""
    else if |parts| == 1 then parts[0]
    else parts[0] + sep + Join(sep, parts[1..])
  }

  /** The index of the first `c` in `s`. */
  function IndexOf(s: string, c: char): (i: nat)
    requires c in s
    ensures i < |s| && s[i] == c && c !in s[..i]
  {
    if s[0] == c then 0 else 1 + IndexOf(s[1..], c)
  }

  /** Any position holding `c` with no `c` before it is the one `IndexOf` finds. */
  lemma {:induction false} IndexOfFirst(s: string, c: char, k: nat)
    requires k < |s| && s[k] == c
    requires forall j :: 0 <= j < k ==> s[j] != c
    ensures IndexOf(s, c) == k
  {
    if k > 0 {
      IndexOfFirst(s[1..], c, k - 1);
    }
  }

  /** `s.split(c)` for a one-character separator. */
  function Split(s: string, c: char): (parts: seq<string>)
    ensures |parts| >= 1
    decreases |s|
  {
    if c !in s then [s]
    else
      var i := IndexOf(s, c);
      [s[..i]] + Split(s[i + 1..], c)
  }

  /** Splitting a joined line on its separator gives back the fields, as long
      as no field contains the separator. */
  lemma {:induction false} SplitJoin(parts: seq<string>, c: char)
    requires |parts| >= 1
    requires forall k :: 0 <= k < |parts| ==> c !in parts[k]
    ensures Split(Join([c], parts), c) == parts
  {
    if |parts| == 1 {
    } else {
      var rest := Join([c], parts[1..]);
      var s := parts[0] + [c] + rest;
      assert Join([c], parts) == s;
      assert s[|parts[0]|] == c;
      assert c in s;
      var i := IndexOf(s, c);
      IndexOfFirst(s, c, |parts[0]|);
      assert s[..i] == parts[0];
      assert s[i + 1..] == rest;
      SplitJoin(parts[1..], c);
    }
  }

  // ---------------------------------------------------------------------
  // Decimal digits: int(), str() and zero-padded fields
  // ---------------------------------------------------------------------

  predicate IsDigit(c: char) { '0' <= c <= '9' }

  predicate AllDigits(s: string) {
    forall i :: 0 <= i < |s| ==> IsDigit(s[i])
  }

  function DigitChar(d: nat): (c: char)
    requires d < 10
    ensures IsDigit(c) && c as int - '0' as int == d
  {
    ('0' as int + d) as char
  }

  /** The number the decimal digits `s` spell, most significant first. */
  function DigitsValue(s: string): nat
    requires AllDigits(s)
  {
    if |s| == 0 then 0
    else DigitsValue(s[..|s| - 1]) * 10 + (s[|s| - 1] as int - '0' as int)
  }

  function Pow10(n: nat): (r: nat)
    ensures r >= 1
  {
    if n == 0 then 1 else 10 * Pow10(n - 1)
  }

  /** `n` written with exactly `width` decimal digits, zero-padded: the
      `%02d`-style field of `strftime`. */
  function Digits(n: nat, width: nat): (r: string)
    requires n < Pow10(width)
    ensures |r| == width && AllDigits(r)
    ensures DigitsValue(r) == n
  {
    if width == 0 then ""
    else
      var prefix := Digits(n / 10, width - 1);
      var r := prefix + [DigitChar(n % 10)];
      assert r[..|r| - 1] == prefix;
      r
  }

  /** `str(n)` for a natural number: the shortest decimal spelling. */
  function NatToString(n: nat): (r: string)
    ensures |r| >= 1 && AllDigits(r)
    ensures DigitsValue(r) == n
    ensures |r| > 1 ==> r[0] != '0'
  {
    if n < 10 then [DigitChar(n)]
    else
      var prefix := NatToString(n / 10);
      var r := prefix + [DigitChar(n % 10)];
      assert r[..|r| - 1] == prefix;
      r
  }

  /** `str(i)` for an integer. */
  function IntToString(i: int): (r: string)
    ensures i >= 0 ==> |r| >= 1 && AllDigits(r) && DigitsValue(r) == i
    ensures i < 0 ==> |r| >= 2 && r[0] == '-' && AllDigits(r[1..]) && DigitsValue(r[1..]) == -i
    ensures i >= 0 && |r| > 1 ==> r[0] != '0'
    ensures i < 0 ==> r[1] != '0'
  {
    if i < 0 then "-" + NatToString(-i) else NatToString(i)
  }

  /** The text `int()` accepts: an optional sign followed by at least one
      decimal digit. */
  predicate IsIntLiteral(s: string) {
    || (|s| >= 1 && AllDigits(s))
    || (|s| >= 2 && (s[0] == '-' || s[0] == '+') && AllDigits(s[1..]))
  }

  /** Python's `int(s)` on a string: an optional sign followed by at least one
      decimal digit; anything else is a ValueError (None). */
  function ParseInt(s: string): (r: Option<int>)
    ensures r.Some? <==> IsIntLiteral(s)
    ensures r.Some? && AllDigits(s) ==> r.value == DigitsValue(s)
    ensures r.Some? && s[0] == '+' ==> r.value == DigitsValue(s[1..])
    ensures r.Some? && s[0] == '-' ==> r.value == -(DigitsValue(s[1..]) as int)
  {
    if |s| >= 1 && (s[0] == '-' || s[0] == '+') then
      var body := s[1..];
      if |body| >= 1 && AllDigits(body) then
        Some(if s[0] == '-' then -(DigitsValue(body) as int) else DigitsValue(body))
      else None
    else if |s| >= 1 && AllDigits(s) then Some(DigitsValue(s))
    else None
  }

  /** Leading zeros do not change the number the digits spell. */
  lemma {:induction false} LeadingZeroValue(s: string)
    requires AllDigits(s)
    ensures AllDigits("0" + s) && DigitsValue("0" + s) == DigitsValue(s)
  {
    assert AllDigits("0" + s);
    if |s| > 0 {
      var z := "0" + s;
      assert z[..|z| - 1] == "0" + s[..|s| - 1];
      LeadingZeroValue(s[..|s| - 1]);
    }
  }

  /** `int` ignores leading zeros: `int("007") == int("7")`. */
  lemma LeadingZerosIgnored(s: string)
    requires |s| >= 1 && AllDigits(s)
    ensures ParseInt("0" + s) == ParseInt(s) == Some(DigitsValue(s))
  {
    LeadingZeroValue(s);
  }

  /** `int(str(i)) == i`. */
  lemma IntToStringRoundTrip(i: int)
    ensures ParseInt(IntToString(i)) == Some(i)
  {
    if i < 0 {
      var s := IntToString(i);
      assert s[1..] == NatToString(-i);
    } else {
      assert IntToString(i)[0] != '-' && IntToString(i)[0] != '+' by {
        assert IsDigit(NatToString(i)[0]);
      }
    }
  }
}

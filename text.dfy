/** The few Kotlin string operations the app relies on: `isBlank`, `trim`
    and the decimal rendering of an integer inside a string template. */
module Text {

  /** Kotlin's `Char.isWhitespace()`: Java's `Character.isWhitespace` or
      `Character.isSpaceChar`, that is the ASCII controls TAB..CR and FS..US,
      and the Unicode space, line and paragraph separators. */
  predicate IsWhitespace(c: char) {
    || c == ' ' || c == '\t' || c == '\n' || c == '\r'
    || c == '\U{0B}' || c == '\U{0C}'
    || ('\U{1C}' <= c <= '\U{1F}')
    || c == '\U{A0}' || c == '\U{1680}'
    || ('\U{2000}' <= c <= '\U{200A}')
    || c == '\U{2028}' || c == '\U{2029}' || c == '\U{202F}' || c == '\U{205F}' || c == '\U{3000}'
  }

  /** Kotlin's `isBlank()`: empty or made of whitespace only. */
  predicate IsBlank(s: string) {
    forall i | 0 <= i < |s| :: IsWhitespace(s[i])
  }

  /** The number of whitespace characters `trim()` drops at the front of `s`. */
  function LeadingWhitespace(s: string): (n: nat)
    ensures n <= |s|
    ensures IsBlank(s[..n])
    ensures n < |s| ==> !IsWhitespace(s[n])
    decreases |s|
  {
    if s != [] && IsWhitespace(s[0]) then
      var rest := LeadingWhitespace(s[1..]);
      assert s[..1 + rest] == [s[0]] + s[1..][..rest];
      1 + rest
    else
      0
  }

  /** The number of whitespace characters `trim()` drops at the back of `s`. */
  function TrailingWhitespace(s: string): (n: nat)
    ensures n <= |s|
    ensures IsBlank(s[|s| - n..])
    ensures n < |s| ==> !IsWhitespace(s[|s| - n - 1])
    decreases |s|
  {
    if s != [] && IsWhitespace(s[|s| - 1]) then
      var init := s[..|s| - 1];
      var rest := TrailingWhitespace(init);
      assert s[|s| - (1 + rest)..] == init[|init| - rest..] + [s[|s| - 1]];
      1 + rest
    else
      0
  }

  /** Every character of a blank suffix is whitespace. */
  lemma BlankSuffix(s: string, n: nat)
    requires n <= |s| && IsBlank(s[|s| - n..])
    ensures forall i | |s| - n <= i < |s| :: IsWhitespace(s[i])
  {
    forall i | |s| - n <= i < |s|
      ensures IsWhitespace(s[i])
    {
      assert s[i] == s[|s| - n..][i - (|s| - n)];
    }
  }

  /** Kotlin's `trim()`: `s` without its leading and trailing whitespace. */
  function Trim(s: string): (r: string)
    ensures |r| <= |s|
    ensures r == [] <==> IsBlank(s)
    ensures r != [] ==> !IsWhitespace(r[0]) && !IsWhitespace(r[|r| - 1])
  {
    var lead := LeadingWhitespace(s);
    if lead == |s| then
      assert s[..lead] == s;
      []
    else
      var trail := TrailingWhitespace(s);
      BlankSuffix(s, trail);
      s[lead..|s| - trail]
  }

  /** `trim()` keeps the run of `s` that starts after its leading whitespace
      and drops only whitespace on either side of it. */
  lemma TrimKeepsCore(s: string)
    ensures LeadingWhitespace(s) + |Trim(s)| <= |s|
    ensures Trim(s) == s[LeadingWhitespace(s)..LeadingWhitespace(s) + |Trim(s)|]
    ensures IsBlank(s[..LeadingWhitespace(s)])
    ensures IsBlank(s[LeadingWhitespace(s) + |Trim(s)|..])
  {
    var lead := LeadingWhitespace(s);
    if lead < |s| {
      var trail := TrailingWhitespace(s);
      BlankSuffix(s, trail);
      var r := s[lead..|s| - trail];
      assert Trim(s) == r;
      assert lead + |r| == |s| - trail;
    } else {
      assert Trim(s) == [];
      assert s[|s|..] == [];
    }
  }

  /** Trimming twice is trimming once. */
  lemma TrimIdempotent(s: string)
    ensures Trim(Trim(s)) == Trim(s)
  {
    var r := Trim(s);
    if r != [] {
      assert LeadingWhitespace(r) == 0;
      assert TrailingWhitespace(r) == 0;
      assert r[0..|r|] == r;
    }
  }

  predicate IsDigits(s: string) {
    forall i | 0 <= i < |s| :: '0' <= s[i] <= '9'
  }

  function DigitChar(d: nat): (c: char)
    requires d < 10
    ensures '0' <= c <= '9' && c as int - '0' as int == d
  {
    (d + '0' as int) as char
  }

  /** The decimal digits of `n`, as Kotlin's string templates write them. */
  function NatToString(n: nat): (s: string)
    ensures |s| >= 1 && IsDigits(s)
    ensures n > 0 ==> s[0] != '0'
    decreases n
  {
    if n < 10 then [DigitChar(n)] else NatToString(n / 10) + [DigitChar(n % 10)]
  }

  /** The value of a string of decimal digits; the inverse of NatToString. */
  function ParseNat(s: string): nat
    requires IsDigits(s)
  {
    if s == [] then 0 else 10 * ParseNat(s[..|s| - 1]) + (s[|s| - 1] as int - '0' as int)
  }

  lemma {:induction false} ParseNatToString(n: nat)
    ensures ParseNat(NatToString(n)) == n
    decreases n
  {
    if n >= 10 {
      var s := NatToString(n);
      assert s[..|s| - 1] == NatToString(n / 10);
      ParseNatToString(n / 10);
    }
  }

  /** An `Int` in a Kotlin string template: a minus sign for negative values. */
  function IntToString(i: int): (s: string)
    ensures i >= 0 ==> s == NatToString(i)
    ensures i < 0 ==> s == "-" + NatToString(-i)
  {
    if i < 0 then "-" + NatToString(-i) else NatToString(i)
  }

  /** No space appears in a rendered integer: only digits and a minus sign. */
  lemma IntToStringHasNoSpace(i: int)
    ensures forall k | 0 <= k < |IntToString(i)| :: IntToString(i)[k] != ' '
  {
    var s := IntToString(i);
    if i < 0 {
      var d := NatToString(-i);
      forall k | 0 <= k < |s|
        ensures s[k] != ' '
      {
        if k > 0 {
          assert s[k] == d[k - 1];
        }
      }
    }
  }

  /** A rendered integer starts with a minus sign exactly when it is negative. */
  lemma IntToStringSign(i: int)
    ensures |IntToString(i)| >= 1
    ensures IntToString(i)[0] == '-' <==> i < 0
  {
    if i >= 0 {
      assert '0' <= NatToString(i)[0] <= '9';
    }
  }

  /** Distinct integers render as distinct strings. */
  lemma IntToStringInjective(i: int, j: int)
    requires IntToString(i) == IntToString(j)
    ensures i == j
  {
    IntToStringSign(i);
    IntToStringSign(j);
    if i >= 0 && j >= 0 {
      assert NatToString(i) == NatToString(j);
      ParseNatToString(i);
      ParseNatToString(j);
    } else if i < 0 && j < 0 {
      var s := IntToString(i);
      assert NatToString(-i) == s[1..];
      assert NatToString(-j) == s[1..];
      ParseNatToString(-i);
      ParseNatToString(-j);
    }
  }
}

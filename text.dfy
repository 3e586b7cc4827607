/** Helpers shared by the server (Python) and the browser controller
    (JavaScript): whitespace trimming in each runtime's sense, decimal
    rendering of counts, Python's str.join and the minimum of two counts. */
module Text {

  /** Which runtime's notion of whitespace a trim uses. */
  datatype Dialect = Python | JavaScript

  /** Python's str.isspace() (bidirectional class WS, B or S, or category Zs)
      and ECMAScript's WhiteSpace and LineTerminator, which String.prototype.trim
      removes. The two agree except on U+001C..U+001F and U+0085 (Python only)
      and U+FEFF (JavaScript only). */
  predicate IsSpace(d: Dialect, c: char) {
    || SharedSpace(c)
    || (d == Python && (('\U{001C}' <= c <= '\U{001F}') || c == '\U{0085}'))
    || (d == JavaScript && c == '\U{FEFF}')
  }

  /** The whitespace both runtimes agree on. */
  predicate SharedSpace(c: char) {
    || c == ' '
    || ('\t' <= c <= '\r')
    || c == '\U{00A0}'
    || c == '\U{1680}'
    || ('\U{2000}' <= c <= '\U{200A}')
    || c == '\U{2028}' || c == '\U{2029}'
    || c == '\U{202F}' || c == '\U{205F}' || c == '\U{3000}'
  }

  /** Every character of s is whitespace (in particular, s may be empty). */
  predicate AllSpace(d: Dialect, s: string) {
    forall i {:trigger IsSpace(d, s[i])} :: 0 <= i < |s| ==> IsSpace(d, s[i])
  }

  /** Drops leading whitespace: the result is the suffix of s that starts at
      the first non-space character. */
  function TrimStart(d: Dialect, s: string): (r: string)
    ensures |r| <= |s| && r == s[|s| - |r|..]
    ensures AllSpace(d, s[..|s| - |r|])
    ensures r == [] || !IsSpace(d, r[0])
    decreases |s|
  {
    if s != [] && IsSpace(d, s[0]) then
      var r := TrimStart(d, s[1..]);
      assert s[..|s| - |r|] == [s[0]] + s[1..][..|s| - 1 - |r|];
      r
    else s
  }

  /** Drops trailing whitespace: the result is the prefix of s that ends at
      the last non-space character. */
  function TrimEnd(d: Dialect, s: string): (r: string)
    ensures |r| <= |s| && r == s[..|r|]
    ensures AllSpace(d, s[|r|..])
    ensures r == [] || !IsSpace(d, r[|r| - 1])
    decreases |s|
  {
    if s != [] && IsSpace(d, s[|s| - 1]) then
      var r := TrimEnd(d, s[..|s| - 1]);
      assert s[|r|..] == s[..|s| - 1][|r|..] + [s[|s| - 1]];
      r
    else s
  }

  /** Python's str.strip() and JavaScript's String.prototype.trim(). */
  function Trim(d: Dialect, s: string): (r: string)
    ensures |r| <= |s|
    ensures r == [] || (!IsSpace(d, r[0]) && !IsSpace(d, r[|r| - 1]))
  {
    TrimEnd(d, TrimStart(d, s))
  }

  /** The input is its leading whitespace followed by TrimStart's result. */
  lemma TrimStartSplits(d: Dialect, s: string) returns (lead: string)
    ensures s == lead + TrimStart(d, s) && AllSpace(d, lead)
  {
    var t := TrimStart(d, s);
    var k := |s| - |t|;
    lead := s[..k];
    assert t == s[k..];
    assert s == lead + t by { assert s == s[..k] + s[k..]; }
  }

  /** The input is TrimEnd's result followed by its trailing whitespace. */
  lemma TrimEndSplits(d: Dialect, s: string) returns (trail: string)
    ensures s == TrimEnd(d, s) + trail && AllSpace(d, trail)
  {
    var r := TrimEnd(d, s);
    trail := s[|r|..];
    assert r == s[..|r|];
    assert s == r + trail by { assert s == s[..|r|] + s[|r|..]; }
  }

  /** The trimmed text is a slice of the input with only whitespace cut off
      on either side: the input is lead + Trim(s) + trail. */
  lemma TrimSplits(d: Dialect, s: string) returns (lead: string, trail: string)
    ensures s == lead + (Trim(d, s) + trail)
    ensures AllSpace(d, lead) && AllSpace(d, trail)
  {
    lead := TrimStartSplits(d, s);
    trail := TrimEndSplits(d, TrimStart(d, s));
  }

  /** A text trims to nothing exactly when it is all whitespace. */
  lemma TrimEmptyIffBlank(d: Dialect, s: string)
    ensures Trim(d, s) == [] <==> AllSpace(d, s)
  {
    var lead, trail := TrimSplits(d, s);
    if Trim(d, s) != [] {
      assert s[|lead|] == Trim(d, s)[0];
    }
  }

  /** Trimming twice is trimming once. */
  lemma TrimIdempotent(d: Dialect, s: string)
    ensures Trim(d, Trim(d, s)) == Trim(d, s)
  {
    var r := Trim(d, s);
    assert TrimStart(d, r) == r;
  }

  /** The server and the browser do not agree on what is blank: a prompt made
      of one U+001C character is non-blank to the browser but blank to the
      server. */
  lemma BlankDiffersBetweenRuntimes()
    ensures Trim(JavaScript, "\U{001C}") == "\U{001C}"
    ensures Trim(Python, "\U{001C}") == []
  {
    assert !IsSpace(JavaScript, '\U{001C}');
    assert TrimStart(Python, "\U{001C}") == [];
  }

  /** Every character JavaScript trims except U+FEFF, Python strips too. */
  lemma SpaceAgreement(c: char)
    requires c != '\U{FEFF}'
    ensures IsSpace(JavaScript, c) ==> IsSpace(Python, c)
  {
  }

  // ---------------------------------------------------------------------
  // Decimal rendering of counts ("{n}", "{2 + i}s", "Models ({n})")

  predicate IsDigits(s: string) {
    forall i :: 0 <= i < |s| ==> '0' <= s[i] <= '9'
  }

  function DigitChar(d: nat): (c: char)
    requires d < 10
    ensures '0' <= c <= '9' && c as int - '0' as int == d
  {
    (d + '0' as int) as char
  }

  /** The shortest decimal text of n, as Python's f-strings and JavaScript's
      template literals render a non-negative integer. */
  function NatToString(n: nat): (s: string)
    ensures s != [] && IsDigits(s)
    ensures s[0] == '0' ==> n == 0
    decreases n
  {
    if n < 10 then [DigitChar(n)] else NatToString(n / 10) + [DigitChar(n % 10)]
  }

  /** The number a string of decimal digits denotes. */
  function DecimalValue(s: string): nat
    requires IsDigits(s)
  {
    if s == [] then 0
    else 10 * DecimalValue(s[..|s| - 1]) + (s[|s| - 1] as int - '0' as int)
  }

  /** Reading back the rendered text gives the number. */
  lemma {:induction false} DecimalRoundTrip(n: nat)
    ensures DecimalValue(NatToString(n)) == n
    decreases n
  {
    if n >= 10 {
      DecimalRoundTrip(n / 10);
      var s := NatToString(n);
      assert s[..|s| - 1] == NatToString(n / 10);
    }
  }

  /** Distinct numbers render as distinct texts. */
  lemma NatToStringInjective(a: nat, b: nat)
    ensures NatToString(a) == NatToString(b) ==> a == b
  {
    DecimalRoundTrip(a);
    DecimalRoundTrip(b);
  }

  function Min(a: nat, b: nat): nat {
    if a <= b then a else b
  }

  /** Python's sep.join(xs). */
  function Join(xs: seq<string>, sep: string): string {
    if xs == [] then []
    else if |xs| == 1 then xs[0]
    else xs[0] + sep + Join(xs[1..], sep)
  }
}

/** Character-level string logic used by the controllers: ASCII case
    folding, the hexadecimal and decimal character classes, and the binary
    (code-point) order MongoDB uses to sort strings. */
module Text {

  import opened Common

  predicate IsHexDigit(c: char) {
    '0' <= c <= '9' || 'a' <= c <= 'f' || 'A' <= c <= 'F'
  }

  predicate IsDecimalDigit(c: char) {
    '0' <= c <= '9'
  }

  /** The character class `[0-9a-fA-F]*`. */
  function AllHex(s: string): (r: bool)
    ensures r <==> forall i :: 0 <= i < |s| ==> IsHexDigit(s[i])
  {
    if s == [] then true else IsHexDigit(s[0]) && AllHex(s[1..])
  }

  /** ASCII upper-case letters map to lower case; every other character,
      including non-ASCII letters, is left alone. */
  function LowerChar(c: char): char {
    if 'A' <= c <= 'Z' then (c as int + 32) as char else c
  }

  function Lower(s: string): (r: string)
    ensures |r| == |s|
    ensures forall i :: 0 <= i < |s| ==> r[i] == LowerChar(s[i])
  {
    if s == [] then [] else [LowerChar(s[0])] + Lower(s[1..])
  }

  /** Whole-string equality up to ASCII case, compared character by
      character from the front. */
  function EqualsIgnoreCase(a: string, b: string): (r: bool)
    ensures r <==> |a| == |b| && forall i :: 0 <= i < |a| ==> LowerChar(a[i]) == LowerChar(b[i])
  {
    if a == [] || b == [] then a == b
    else LowerChar(a[0]) == LowerChar(b[0]) && EqualsIgnoreCase(a[1..], b[1..])
  }

  lemma {:induction false} EqualsIgnoreCaseIsLowerEquality(a: string, b: string)
    ensures EqualsIgnoreCase(a, b) <==> Lower(a) == Lower(b)
  {
    if EqualsIgnoreCase(a, b) {
      assert |Lower(a)| == |Lower(b)|;
      forall i | 0 <= i < |a| ensures Lower(a)[i] == Lower(b)[i] { }
    }
    if Lower(a) == Lower(b) {
      forall i | 0 <= i < |a| ensures LowerChar(a[i]) == LowerChar(b[i]) {
        assert Lower(a)[i] == Lower(b)[i];
      }
    }
  }

  /** A non-empty run of decimal digits read as a natural number; any other
      string does not cast. */
  function ParseDecimal(s: string): (r: Option<int>)
    ensures r.Some? <==> s != [] && forall i :: 0 <= i < |s| ==> IsDecimalDigit(s[i])
    ensures r.Some? ==> r.value >= 0
  {
    if s == [] then None
    else if |s| == 1 then (if IsDecimalDigit(s[0]) then Some(s[0] as int - '0' as int) else None)
    else match ParseDecimal(s[..|s| - 1])
      case None => None
      case Some(prefix) =>
        if IsDecimalDigit(s[|s| - 1]) then Some(prefix * 10 + (s[|s| - 1] as int - '0' as int)) else None
  }

  /** Appending a digit to a numeral multiplies its value by ten and adds
      the digit's value: the positional reading of a decimal numeral. */
  lemma {:induction false} ParseDecimalAppend(s: string, d: char)
    requires ParseDecimal(s).Some? && IsDecimalDigit(d)
    ensures ParseDecimal(s + [d]) == Some(10 * ParseDecimal(s).value + (d as int - '0' as int))
  {
    assert (s + [d])[..|s|] == s;
  }

  /** The decimal numeral of `n`, without leading zeros. */
  function Decimal(n: nat): (r: string)
    ensures r != [] && forall i :: 0 <= i < |r| ==> IsDecimalDigit(r[i])
  {
    if n < 10 then [('0' as int + n) as char]
    else Decimal(n / 10) + [('0' as int + n % 10) as char]
  }

  /** Reading back the numeral of `n` gives `n`. */
  lemma {:induction false} ParseDecimalOfDecimal(n: nat)
    ensures ParseDecimal(Decimal(n)) == Some(n)
  {
    if n >= 10 {
      ParseDecimalOfDecimal(n / 10);
      ParseDecimalAppend(Decimal(n / 10), ('0' as int + n % 10) as char);
    }
  }

  /** Binary string order: the first differing character decides, and a
      proper prefix comes first. */
  predicate LexLe(a: string, b: string) {
    if a == [] then true
    else if b == [] then false
    else if a[0] != b[0] then a[0] < b[0]
    else LexLe(a[1..], b[1..])
  }

  lemma {:induction false} LexLeTotal(a: string, b: string)
    ensures LexLe(a, b) || LexLe(b, a)
  {
    if a != [] && b != [] && a[0] == b[0] {
      LexLeTotal(a[1..], b[1..]);
    }
  }

  lemma {:induction false} LexLeTransitive(a: string, b: string, c: string)
    requires LexLe(a, b) && LexLe(b, c)
    ensures LexLe(a, c)
  {
    if a != [] && b != [] && c != [] && a[0] == b[0] && b[0] == c[0] {
      LexLeTransitive(a[1..], b[1..], c[1..]);
    }
  }

  lemma {:induction false} LexLeAntisymmetric(a: string, b: string)
    requires LexLe(a, b) && LexLe(b, a)
    ensures a == b
  {
    if a != [] && b != [] {
      LexLeAntisymmetric(a[1..], b[1..]);
      assert a == [a[0]] + a[1..] && b == [b[0]] + b[1..];
    }
  }
}

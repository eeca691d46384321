/** String helpers shared by the backend, the classification service and the
    dashboard: truthiness of an optional string, decimal rendering of a clock
    reading, and substring search. */
module Text {
  import opened Wrappers

  /** An optional string is truthy in JavaScript and in Python when it is
      present and not the empty string. */
  predicate Truthy(v: Option<string>) {
    v.Some? && v.value != ""
  }

  /** JavaScript's `v || fallback` on an optional string. */
  function OrElse(v: Option<string>, fallback: string): string {
    if Truthy(v) then v.value else fallback
  }

  predicate IsDigit(c: char) {
    '0' <= c <= '9'
  }

  predicate IsDigitString(s: string) {
    forall i :: 0 <= i < |s| ==> IsDigit(s[i])
  }

  function DigitChar(d: nat): (c: char)
    requires d < 10
    ensures IsDigit(c)
  {
    (48 + d) as char
  }

  function DigitValue(c: char): (d: nat)
    requires IsDigit(c)
    ensures d < 10
  {
    c as int - 48
  }

  /** The decimal rendering of a non-negative integer, as JavaScript's
      template literals print `Date.now()`: no sign, no leading zeros. */
  function NatToString(n: nat): (s: string)
    ensures |s| >= 1 && IsDigitString(s)
    ensures |s| > 1 ==> s[0] != '0'
    decreases n
  {
    if n < 10 then [DigitChar(n)] else NatToString(n / 10) + [DigitChar(n % 10)]
  }

  /** The value of a string of decimal digits. */
  function ParseDecimal(s: string): nat
    requires IsDigitString(s)
  {
    if s == [] then 0 else ParseDecimal(s[..|s| - 1]) * 10 + DigitValue(s[|s| - 1])
  }

  lemma {:induction false} ParseNatToString(n: nat)
    ensures ParseDecimal(NatToString(n)) == n
    decreases n
  {
    if n >= 10 {
      var s := NatToString(n);
      assert s[..|s| - 1] == NatToString(n / 10);
      ParseNatToString(n / 10);
    }
  }

  /** Different clock readings render differently. */
  lemma NatToStringInjective(a: nat, b: nat)
    requires NatToString(a) == NatToString(b)
    ensures a == b
  {
    ParseNatToString(a);
    ParseNatToString(b);
  }

  /** `a + sep + d` determines `a` and `d` when `a` holds no `sep`: the
      separator's first occurrence is at index `|a|`. */
  lemma SeparatedInjective(a1: string, d1: string, a2: string, d2: string, sep: char)
    requires sep !in a1 && sep !in a2
    requires a1 + [sep] + d1 == a2 + [sep] + d2
    ensures a1 == a2 && d1 == d2
  {
    var s := a1 + [sep] + d1;
    assert s[|a1|] == sep;
    assert forall i :: 0 <= i < |a2| ==> s[i] == a2[i];
    assert |a1| >= |a2|;
    assert forall i :: 0 <= i < |a1| ==> s[i] == a1[i];
    assert s[|a2|] == sep;
    assert |a2| >= |a1|;
    assert a1 == s[..|a1|] == a2;
    assert d1 == s[|a1| + 1..] == d2;
  }

  /** Python's `pat in text`, and `re.search` of a pattern without special
      characters: `pat` occurs somewhere in `text`. */
  predicate Contains(text: string, pat: string)
    decreases |text|
  {
    pat <= text || (|text| > 0 && Contains(text[1..], pat))
  }

  /** `re.search` of an alternation `p1|p2|...` of plain patterns. */
  predicate ContainsAny(text: string, pats: seq<string>) {
    exists p :: p in pats && Contains(text, p)
  }

  /** A pattern longer than the text does not occur in it. */
  lemma {:induction false} LongPatternAbsent(text: string, pat: string)
    requires |pat| > |text|
    ensures !Contains(text, pat)
    decreases |text|
  {
    if |text| > 0 {
      LongPatternAbsent(text[1..], pat);
    }
  }

  /** A pattern with a character the text lacks does not occur in it. */
  lemma {:induction false} MissingCharAbsent(text: string, pat: string, i: nat)
    requires i < |pat| && pat[i] !in text
    ensures !Contains(text, pat)
    decreases |text|
  {
    if i < |text| {
      assert text[i] in text;
    }
    if |text| > 0 {
      assert pat[i] !in text[1..];
      MissingCharAbsent(text[1..], pat, i);
    }
  }
}

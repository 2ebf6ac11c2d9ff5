/**
 * Text helpers used by the product listing and the stock page:
 * substring search (the `LIKE '%term%'` filter), the order of
 * `ORDER BY nome ASC` and the conversion of form fields with `int(...)`.
 */
module Text {
  import opened Wrappers

  // ---------------------------------------------------------------------------
  // Substring search
  // ---------------------------------------------------------------------------

  /** `term` occurs in `text` at position `k`. */
  predicate OccursAt(term: string, text: string, k: int)
  {
    0 <= k && k + |term| <= |text| && text[k..k + |term|] == term
  }

  /** Reference definition: some position of `text` starts an occurrence of `term`. */
  ghost predicate IsSubstring(term: string, text: string)
  {
    exists k :: OccursAt(term, text, k)
  }

  /** Executable search: try the occurrence at the head, otherwise drop one character. */
  function Contains(text: string, term: string): bool
    decreases |text|
  {
    if |text| < |term| then false
    else if text[..|term|] == term then true
    else Contains(text[1..], term)
  }

  lemma {:induction false} ContainsIsSubstring(text: string, term: string)
    ensures Contains(text, term) <==> IsSubstring(term, text)
    decreases |text|
  {
    if |text| < |term| {
    } else if text[..|term|] == term {
      assert OccursAt(term, text, 0);
    } else {
      ContainsIsSubstring(text[1..], term);
      if Contains(text[1..], term) {
        var k :| OccursAt(term, text[1..], k);
        assert text[1..][k..k + |term|] == text[k + 1..k + 1 + |term|];
        assert OccursAt(term, text, k + 1);
      }
      if IsSubstring(term, text) {
        var k :| OccursAt(term, text, k);
        assert k != 0;
        assert text[1..][k - 1..k - 1 + |term|] == text[k..k + |term|];
        assert OccursAt(term, text[1..], k - 1);
      }
    }
  }

  /** The empty term occurs in every text. */
  lemma EmptyTermOccurs(text: string)
    ensures Contains(text, "")
  {
  }

  // ---------------------------------------------------------------------------
  // Text order (SQLite's BINARY collation: code point by code point, a proper
  // prefix sorts first)
  // ---------------------------------------------------------------------------

  predicate LexLe(a: string, b: string)
    decreases |a|
  {
    if a == [] then true
    else if b == [] then false
    else if a[0] != b[0] then a[0] < b[0]
    else LexLe(a[1..], b[1..])
  }

  lemma {:induction false} LexLeTotal(a: string, b: string)
    ensures LexLe(a, b) || LexLe(b, a)
    decreases |a|
  {
    if a != [] && b != [] && a[0] == b[0] {
      LexLeTotal(a[1..], b[1..]);
    }
  }

  lemma {:induction false} LexLeTransitive(a: string, b: string, c: string)
    requires LexLe(a, b) && LexLe(b, c)
    ensures LexLe(a, c)
    decreases |a|
  {
    if a != [] && b != [] && c != [] && a[0] == b[0] && b[0] == c[0] {
      LexLeTransitive(a[1..], b[1..], c[1..]);
    }
  }

  lemma {:induction false} LexLeAntisymmetric(a: string, b: string)
    requires LexLe(a, b) && LexLe(b, a)
    ensures a == b
    decreases |a|
  {
    if a != [] && b != [] {
      LexLeAntisymmetric(a[1..], b[1..]);
      assert a == [a[0]] + a[1..] && b == [b[0]] + b[1..];
    }
  }

  // ---------------------------------------------------------------------------
  // Integer conversion of form fields (Python's `int(text)`, decimal form)
  // ---------------------------------------------------------------------------

  predicate IsDigit(c: char)
  {
    '0' <= c <= '9'
  }

  predicate AllDigits(s: string)
  {
    |s| > 0 && forall i :: 0 <= i < |s| ==> IsDigit(s[i])
  }

  /** Value of a string of decimal digits, most significant first. */
  function DigitsValue(s: string): nat
    requires forall i :: 0 <= i < |s| ==> IsDigit(s[i])
    decreases |s|
  {
    if s == [] then 0
    else
      var last := s[|s| - 1];
      assert IsDigit(last);
      DigitsValue(s[..|s| - 1]) * 10 + (last as int - '0' as int)
  }

  /** `int(s)`: an optional sign followed by one or more decimal digits. */
  function ParseInt(s: string): Option<int>
  {
    if |s| > 1 && s[0] == '-' && AllDigits(s[1..]) then Some(-(DigitsValue(s[1..]) as int))
    else if |s| > 1 && s[0] == '+' && AllDigits(s[1..]) then Some(DigitsValue(s[1..]))
    else if AllDigits(s) then Some(DigitsValue(s))
    else None
  }

  /** Decimal digits of `n` (what `str(n)` prints for a natural number). */
  function FormatNat(n: nat): string
    decreases n
  {
    if n < 10 then ['0' + n as char]
    else FormatNat(n / 10) + ['0' + (n % 10) as char]
  }

  /** `str(n)`: the decimal text the pages print for an integer. */
  function FormatInt(n: int): string
  {
    if n < 0 then "-" + FormatNat(-n) else FormatNat(n)
  }

  lemma {:induction false} FormatNatDigits(n: nat)
    ensures AllDigits(FormatNat(n)) && DigitsValue(FormatNat(n)) == n
    decreases n
  {
    if n >= 10 {
      FormatNatDigits(n / 10);
      var s := FormatNat(n);
      assert s[..|s| - 1] == FormatNat(n / 10);
    }
  }

  /** Round trip: a number printed by a page and posted back converts to itself. */
  lemma ParseFormatInt(n: int)
    ensures ParseInt(FormatInt(n)) == Some(n)
  {
    if n < 0 {
      FormatNatDigits(-n);
      assert FormatInt(n)[1..] == FormatNat(-n);
    } else {
      FormatNatDigits(n);
    }
  }
}

/** `String.prototype.trim` as the JavaScript runtime defines it. */
module Text {

  /** The characters `trim` removes: the ECMAScript WhiteSpace and
      LineTerminator code points (tab, line tabulation, form feed, space,
      no-break space, the byte order mark, the Unicode space separators,
      line feed, carriage return, line and paragraph separator). */
  predicate IsWhitespace(c: char) {
    || c == '\t' || c == '\n' || c == '\U{000B}' || c == '\U{000C}' || c == '\r'
    || c == ' ' || c == '\U{00A0}' || c == '\U{1680}'
    || ('\U{2000}' <= c <= '\U{200A}')
    || c == '\U{2028}' || c == '\U{2029}' || c == '\U{202F}' || c == '\U{205F}'
    || c == '\U{3000}' || c == '\U{FEFF}'
  }

  /** Every character of `s` is whitespace. */
  predicate AllWhitespace(s: string) {
    forall i :: 0 <= i < |s| ==> IsWhitespace(s[i])
  }

  /** Neither end of `s` is whitespace. */
  predicate Trimmed(s: string) {
    s == [] || (!IsWhitespace(s[0]) && !IsWhitespace(s[|s| - 1]))
  }

  /** The number of whitespace characters `s` starts with. */
  function LeadingCount(s: string): (n: nat)
    ensures n <= |s|
  {
    if |s| > 0 && IsWhitespace(s[0]) then 1 + LeadingCount(s[1..]) else 0
  }

  /** The number of whitespace characters `s` ends with. */
  function TrailingCount(s: string): (n: nat)
    ensures n <= |s|
  {
    if |s| > 0 && IsWhitespace(s[|s| - 1]) then 1 + TrailingCount(s[..|s| - 1]) else 0
  }

  /** `s.trim()`: the leading and then the trailing whitespace removed. */
  function Trim(s: string): string {
    var t := s[LeadingCount(s)..];
    t[..|t| - TrailingCount(t)]
  }

  /** `LeadingCount` counts exactly the leading run of whitespace. */
  lemma {:induction false} LeadingCountSpec(s: string)
    ensures forall i :: 0 <= i < LeadingCount(s) ==> IsWhitespace(s[i])
    ensures LeadingCount(s) < |s| ==> !IsWhitespace(s[LeadingCount(s)])
  {
    if |s| > 0 && IsWhitespace(s[0]) {
      LeadingCountSpec(s[1..]);
      forall i | 0 < i < LeadingCount(s) ensures IsWhitespace(s[i]) {
        assert s[i] == s[1..][i - 1];
      }
    }
  }

  /** `TrailingCount` counts exactly the trailing run of whitespace. */
  lemma {:induction false} TrailingCountSpec(s: string)
    ensures forall i :: |s| - TrailingCount(s) <= i < |s| ==> IsWhitespace(s[i])
    ensures TrailingCount(s) < |s| ==> !IsWhitespace(s[|s| - TrailingCount(s) - 1])
  {
    if |s| > 0 && IsWhitespace(s[|s| - 1]) {
      var t := s[..|s| - 1];
      TrailingCountSpec(t);
      forall i | |s| - TrailingCount(s) <= i < |s| - 1 ensures IsWhitespace(s[i]) {
        assert s[i] == t[i];
      }
    }
  }

  /** The trimmed string has no whitespace at either end. */
  lemma TrimTrimmed(s: string)
    ensures Trimmed(Trim(s))
  {
    var k := LeadingCount(s);
    var t := s[k..];
    var n := TrailingCount(t);
    var r := t[..|t| - n];
    if r != [] {
      LeadingCountSpec(s);
      TrailingCountSpec(t);
      assert r[0] == s[k];
      assert r[|r| - 1] == t[|t| - n - 1];
    }
  }

  lemma {:induction false} LeadingRunIsWhitespace(s: string)
    ensures AllWhitespace(s[..LeadingCount(s)])
  {
    LeadingCountSpec(s);
    var head := s[..LeadingCount(s)];
    forall i | 0 <= i < |head| ensures IsWhitespace(head[i]) { assert head[i] == s[i]; }
  }

  lemma {:induction false} TrailingRunIsWhitespace(t: string)
    ensures AllWhitespace(t[|t| - TrailingCount(t)..])
  {
    TrailingCountSpec(t);
    var tail := t[|t| - TrailingCount(t)..];
    forall i | 0 <= i < |tail| ensures IsWhitespace(tail[i]) { assert tail[i] == t[|t| - TrailingCount(t) + i]; }
  }

  /** The input is whitespace, then the trimmed string, then whitespace. */
  lemma TrimDecomposition(s: string)
    ensures exists k :: 0 <= k <= |s| - |Trim(s)| && Trim(s) == s[k..k + |Trim(s)|]
                        && AllWhitespace(s[..k]) && AllWhitespace(s[k + |Trim(s)|..])
  {
    var k := LeadingCount(s);
    var t := s[k..];
    var r := Trim(s);
    assert r == t[..|t| - TrailingCount(t)];
    assert r == s[k..k + |r|];
    LeadingRunIsWhitespace(s);
    TrailingRunIsWhitespace(t);
    assert s[k + |r|..] == t[|t| - TrailingCount(t)..];
  }

  /** Trimming changes nothing once neither end is whitespace. */
  lemma {:induction false} TrimOfTrimmed(s: string)
    requires Trimmed(s)
    ensures Trim(s) == s
  {
    assert LeadingCount(s) == 0;
    assert s[0..] == s;
    assert TrailingCount(s) == 0;
  }

  /** `trim` is idempotent. */
  lemma {:induction false} TrimIdempotent(s: string)
    ensures Trim(Trim(s)) == Trim(s)
  {
    TrimTrimmed(s);
    TrimOfTrimmed(Trim(s));
  }

  /** A string trims to the empty string exactly when it is all whitespace
      (the empty string included). */
  lemma {:induction false} TrimEmptyIffAllWhitespace(s: string)
    ensures Trim(s) == "" <==> AllWhitespace(s)
  {
    LeadingCountSpec(s);
    if AllWhitespace(s) {
      assert LeadingCount(s) == |s|;
      assert s[|s|..] == [];
    }
    if Trim(s) == "" {
      TrimDecomposition(s);
      var k :| 0 <= k <= |s| && AllWhitespace(s[..k]) && AllWhitespace(s[k..]);
      forall i | 0 <= i < |s| ensures IsWhitespace(s[i]) {
        if i < k { assert s[..k][i] == s[i]; } else { assert s[k..][i - k] == s[i]; }
      }
    }
  }
}

/** String semantics of the JavaScript runtime that the screens rely on:
    truthiness of optional strings, `String.prototype.trim`, decimal rendering
    of integers (`toString()`), `padStart`, first-occurrence `replace` and
    `toUpperCase` on a single character. */
module JsText {

  datatype Option<+T> = None | Some(value: T)

  /** A JavaScript value that is a string or absent is truthy iff it is a
      non-empty string. */
  predicate Present(s: Option<string>)
  {
    s.Some? && s.value != ""
  }

  // ---------------------------------------------------------------------------
  // trim()
  // ---------------------------------------------------------------------------

  /** The WhiteSpace and LineTerminator code points that `trim()` removes
      (ECMAScript, sections 12.2 and 12.3 of ECMA-262). */
  predicate IsWhitespace(c: char)
  {
    c == '\t' || c == '\U{000B}' || c == '\U{000C}' || c == ' ' ||
    c == '\U{00A0}' || c == '\U{FEFF}' || c == '\U{1680}' ||
    ('\U{2000}' <= c <= '\U{200A}') || c == '\U{202F}' || c == '\U{205F}' || c == '\U{3000}' ||
    c == '\n' || c == '\r' || c == '\U{2028}' || c == '\U{2029}'
  }

  function TrimStart(s: string): (r: string)
    ensures |r| <= |s| && r == s[|s| - |r|..]
    ensures r != "" ==> !IsWhitespace(r[0])
  {
    if s != "" && IsWhitespace(s[0]) then TrimStart(s[1..]) else s
  }

  function TrimEnd(s: string): (r: string)
    ensures |r| <= |s| && r == s[..|r|]
    ensures r != "" ==> !IsWhitespace(r[|r| - 1])
  {
    if s != "" && IsWhitespace(s[|s| - 1]) then TrimEnd(s[..|s| - 1]) else s
  }

  function Trim(s: string): string
  {
    TrimEnd(TrimStart(s))
  }

  /** Text whose every character is whitespace; BlankIffTrimEmpty shows this
      is exactly the text for which `!s.trim()` holds. */
  predicate IsBlank(s: string)
  {
    forall i | 0 <= i < |s| :: IsWhitespace(s[i])
  }

  lemma {:induction false} TrimStartEmpty(s: string)
    ensures TrimStart(s) == "" <==> IsBlank(s)
  {
    if s == "" {
    } else if IsWhitespace(s[0]) {
      var t := s[1..];
      TrimStartEmpty(t);
      assert TrimStart(s) == TrimStart(t);
      assert IsBlank(s) <==> IsBlank(t) by {
        assert forall i | 0 <= i < |t| :: t[i] == s[i + 1];
      }
    } else {
      assert TrimStart(s) == s;
    }
  }

  /** `trim()` empties exactly the text made only of whitespace: it cannot
      empty a string that holds any other character. */
  lemma BlankIffTrimEmpty(s: string)
    ensures Trim(s) == "" <==> IsBlank(s)
  {
    TrimStartEmpty(s);
    var t := TrimStart(s);
    if t != "" {
      // t starts with a character trim() keeps, so TrimEnd(t) keeps it too
      assert TrimEnd(t) != "" by {
        if TrimEnd(t) == "" { TrimEndKeepsHead(t); }
      }
    }
  }

  lemma {:induction false} TrimEndKeepsHead(t: string)
    requires t != "" && !IsWhitespace(t[0])
    ensures TrimEnd(t) != ""
  {
    if |t| > 1 && IsWhitespace(t[|t| - 1]) {
      TrimEndKeepsHead(t[..|t| - 1]);
    }
  }

  // ---------------------------------------------------------------------------
  // Decimal rendering: Number.prototype.toString() on integers
  // ---------------------------------------------------------------------------

  predicate IsDigit(c: char)
  {
    '0' <= c <= '9'
  }

  function DigitChar(d: nat): (c: char)
    requires d < 10
    ensures IsDigit(c) && c as int - '0' as int == d
  {
    ('0' as int + d) as char
  }

  function DigitValue(c: char): (d: nat)
    requires IsDigit(c)
    ensures d < 10
  {
    c as int - '0' as int
  }

  /** Decimal digits of a natural number, most significant first, no leading zero. */
  function NatToString(n: nat): (r: string)
    ensures r != "" && forall i | 0 <= i < |r| :: IsDigit(r[i])
    ensures |r| > 1 ==> r[0] != '0'
  {
    if n < 10 then [DigitChar(n)] else NatToString(n / 10) + [DigitChar(n % 10)]
  }

  /** `String(i)` for an integer: a minus sign for negative values. */
  function IntToString(i: int): (r: string)
    ensures r != ""
    ensures i >= 0 ==> r == NatToString(i)
    ensures i < 0 ==> r == "-" + NatToString(-i)
  {
    if i < 0 then "-" + NatToString(-i) else NatToString(i)
  }

  /** Value of a non-empty run of decimal digits; the inverse of NatToString. */
  function ParseDigits(s: string): nat
    requires s != "" && forall i | 0 <= i < |s| :: IsDigit(s[i])
  {
    if |s| == 1 then DigitValue(s[0])
    else ParseDigits(s[..|s| - 1]) * 10 + DigitValue(s[|s| - 1])
  }

  /** Reads a natural number written in decimal; None for anything else. */
  function ParseNat(s: string): (r: Option<nat>)
    ensures r.Some? <==> s != "" && forall i | 0 <= i < |s| :: IsDigit(s[i])
  {
    if s != "" && forall i | 0 <= i < |s| :: IsDigit(s[i]) then Some(ParseDigits(s)) else None
  }

  lemma {:induction false} ParseDigitsOfNat(n: nat)
    ensures ParseDigits(NatToString(n)) == n
  {
    if n >= 10 {
      var h := NatToString(n / 10);
      var s := NatToString(n);
      assert s == h + [DigitChar(n % 10)];
      assert s[..|s| - 1] == h;
      ParseDigitsOfNat(n / 10);
    }
  }

  /** Decimal rendering round-trips through parsing. */
  lemma NatStringRoundTrip(n: nat)
    ensures ParseNat(NatToString(n)) == Some(n)
  {
    ParseDigitsOfNat(n);
  }

  /** A number below 10^k takes at most k digits (k = 1, 2, 3 are needed here). */
  lemma NatToStringLength(n: nat)
    ensures n < 10 ==> |NatToString(n)| == 1
    ensures 10 <= n < 100 ==> |NatToString(n)| == 2
    ensures 100 <= n < 1000 ==> |NatToString(n)| == 3
  {
  }

  // ---------------------------------------------------------------------------
  // padStart, replace, toUpperCase
  // ---------------------------------------------------------------------------

  function Repeat(c: char, k: nat): (r: string)
    ensures |r| == k && forall i | 0 <= i < k :: r[i] == c
  {
    if k == 0 then "" else [c] + Repeat(c, k - 1)
  }

  /** `s.padStart(width, c)` with a one-character filler. */
  function PadStart(s: string, width: nat, c: char): (r: string)
    ensures |s| >= width ==> r == s
    ensures |s| < width ==> |r| == width && r[width - |s|..] == s &&
                            forall i | 0 <= i < width - |s| :: r[i] == c
  {
    if |s| >= width then s else Repeat(c, width - |s|) + s
  }

  /** `pat` occurs in `s` at index `k`. */
  predicate OccursAt(s: string, pat: string, k: nat)
  {
    k + |pat| <= |s| && s[k..k + |pat|] == pat
  }

  /** `s.replace(pat, rep)` with a string pattern: only the FIRST occurrence
      is replaced. */
  function ReplaceFirst(s: string, pat: string, rep: string): string
    requires pat != ""
    decreases |s|
  {
    if |s| < |pat| then s
    else if s[..|pat|] == pat then rep + s[|pat|..]
    else [s[0]] + ReplaceFirst(s[1..], pat, rep)
  }

  lemma ReplaceFirstAtStart(s: string, pat: string, rep: string)
    requires pat != "" && OccursAt(s, pat, 0)
    ensures ReplaceFirst(s, pat, rep) == rep + s[|pat|..]
  {
  }

  /** Only the first occurrence is replaced: everything before it and
      everything after it, later occurrences included, is kept. */
  lemma {:induction false} ReplaceFirstAt(s: string, pat: string, rep: string, k: nat)
    requires pat != "" && OccursAt(s, pat, k)
    requires forall j: nat | j < k :: !OccursAt(s, pat, j)
    ensures ReplaceFirst(s, pat, rep) == s[..k] + rep + s[k + |pat|..]
    decreases k
  {
    if k == 0 {
      ReplaceFirstAtStart(s, pat, rep);
    } else {
      var t := s[1..];
      OccursShift(s, pat, k - 1);
      forall j: nat | j < k - 1 ensures !OccursAt(t, pat, j) {
        OccursShift(s, pat, j);
      }
      ReplaceFirstAt(t, pat, rep, k - 1);
      ReplaceFirstSkip(s, pat, rep);
      assert [s[0]] + t[..k - 1] == s[..k];
      assert t[k - 1 + |pat|..] == s[k + |pat|..];
    }
  }

  /** An occurrence at j + 1 is an occurrence at j once the first character
      is dropped. */
  lemma OccursShift(s: string, pat: string, j: nat)
    requires s != ""
    ensures OccursAt(s, pat, j + 1) <==> OccursAt(s[1..], pat, j)
  {
    if j + 1 + |pat| <= |s| {
      assert s[1..][j..j + |pat|] == s[j + 1..j + 1 + |pat|];
    }
  }

  /** Without an occurrence at the start, the first character is kept. */
  lemma ReplaceFirstSkip(s: string, pat: string, rep: string)
    requires pat != "" && |s| >= |pat| && !OccursAt(s, pat, 0)
    ensures ReplaceFirst(s, pat, rep) == [s[0]] + ReplaceFirst(s[1..], pat, rep)
  {
    assert s[..|pat|] != pat;
  }

  /** Text without the pattern anywhere is returned unchanged. */
  lemma {:induction false} ReplaceFirstAbsent(s: string, pat: string, rep: string)
    requires pat != ""
    requires forall k: nat | k <= |s| :: !OccursAt(s, pat, k)
    ensures ReplaceFirst(s, pat, rep) == s
    decreases |s|
  {
    if |s| >= |pat| {
      assert !OccursAt(s, pat, 0);
      forall k: nat | k <= |s[1..]| ensures !OccursAt(s[1..], pat, k) {
        assert !OccursAt(s, pat, k + 1);
        if k + |pat| <= |s[1..]| {
          assert s[1..][k..k + |pat|] == s[k + 1..k + 1 + |pat|];
        }
      }
      ReplaceFirstAbsent(s[1..], pat, rep);
    }
  }

  /** `toUpperCase()` of one character; only the ASCII letters are mapped. */
  function ToUpperAscii(c: char): (u: char)
    ensures 'a' <= c <= 'z' ==> 'A' <= u <= 'Z' && u as int == c as int - 32
    ensures !('a' <= c <= 'z') ==> u == c
  {
    if 'a' <= c <= 'z' then (c as int - 32) as char else c
  }
}

/**
 * The string operations the screens rely on: `trim`, `Number.toString`,
 * `padStart`, `toLowerCase`, `includes`, `Array.join("")` and the
 * lexicographic order on strings.
 */
module Text {

  /** The code points `String.prototype.trim` strips: white space and line terminators. */
  predicate IsWhitespace(c: char)
  {
    || c == '\t' || c == '\n' || c == '\U{000B}' || c == '\U{000C}' || c == '\r' || c == ' '
    || c == '\U{00A0}' || c == '\U{1680}' || ('\U{2000}' <= c <= '\U{200A}')
    || c == '\U{2028}' || c == '\U{2029}' || c == '\U{202F}' || c == '\U{205F}'
    || c == '\U{3000}' || c == '\U{FEFF}'
  }

  /** Every character of `s` is white space (the empty string included). */
  predicate Blank(s: string)
  {
    forall i :: 0 <= i < |s| ==> IsWhitespace(s[i])
  }

  /** `s` with its leading white space removed. */
  function TrimStart(s: string): string
  {
    if |s| > 0 && IsWhitespace(s[0]) then TrimStart(s[1..]) else s
  }

  /** `s` with its trailing white space removed. */
  function TrimEnd(s: string): string
  {
    if |s| > 0 && IsWhitespace(s[|s| - 1]) then TrimEnd(s[..|s| - 1]) else s
  }

  /** `s.trim()`. */
  function Trim(s: string): string
  {
    TrimEnd(TrimStart(s))
  }

  /** `TrimStart` removes a blank prefix and stops at the first other character. */
  lemma {:induction false} TrimStartSplits(s: string)
    ensures var r := TrimStart(s);
            && |r| <= |s| && r == s[|s| - |r|..]
            && Blank(s[..|s| - |r|])
            && (r == [] || !IsWhitespace(r[0]))
  {
    if |s| > 0 && IsWhitespace(s[0]) {
      TrimStartSplits(s[1..]);
      var r := TrimStart(s);
      assert s[..|s| - |r|] == [s[0]] + s[1..][..|s| - 1 - |r|];
    }
  }

  /** `TrimEnd` removes a blank suffix and stops at the last other character. */
  lemma {:induction false} TrimEndSplits(s: string)
    ensures var r := TrimEnd(s);
            && |r| <= |s| && r == s[..|r|]
            && Blank(s[|r|..])
            && (r == [] || !IsWhitespace(r[|r| - 1]))
  {
    if |s| > 0 && IsWhitespace(s[|s| - 1]) {
      TrimEndSplits(s[..|s| - 1]);
      var r := TrimEnd(s);
      assert s[|r|..] == s[..|s| - 1][|r|..] + [s[|s| - 1]];
    }
  }

  /** `s.trim()` is falsy exactly when `s` holds nothing but white space. */
  lemma TrimEmptyIffBlank(s: string)
    ensures Trim(s) == [] <==> Blank(s)
  {
    TrimStartSplits(s);
    var t := TrimStart(s);
    TrimEndSplits(t);
    var k := |s| - |t|;
    assert s == s[..k] + t;
    if Trim(s) == [] {
      assert t[|TrimEnd(t)|..] == t;
      assert t == [];
    } else {
      assert t != [] && t[0] == s[k];
    }
  }

  /** A trimmed string neither starts nor ends with white space, and trimming it again changes nothing. */
  lemma TrimIdempotent(s: string)
    ensures Trim(s) == [] || (!IsWhitespace(Trim(s)[0]) && !IsWhitespace(Trim(s)[|Trim(s)| - 1]))
    ensures Trim(Trim(s)) == Trim(s)
  {
    TrimStartSplits(s);
    var t := TrimStart(s);
    TrimEndSplits(t);
    var r := TrimEnd(t);
    if r != [] {
      assert r[0] == t[0];
    }
  }

  // ---------------------------------------------------------------- numbers

  function DigitChar(d: nat): (c: char)
    requires d < 10
    ensures '0' <= c <= '9'
  {
    ('0' as int + d) as char
  }

  /** `n.toString()` for a non-negative integer. */
  function Decimal(n: nat): string
    decreases n
  {
    if n < 10 then [DigitChar(n)] else Decimal(n / 10) + [DigitChar(n % 10)]
  }

  /** `Decimal` writes at least one character, only decimal digits, and no leading zero. */
  lemma {:induction false} DecimalDigits(n: nat)
    ensures 1 <= |Decimal(n)|
    ensures forall i :: 0 <= i < |Decimal(n)| ==> '0' <= Decimal(n)[i] <= '9'
    ensures Decimal(n)[0] == '0' ==> n == 0
    decreases n
  {
    if n >= 10 {
      DecimalDigits(n / 10);
      assert Decimal(n)[0] == Decimal(n / 10)[0];
    }
  }

  /** The value of a string read as decimal digits. */
  function ParseDecimal(s: string): int
  {
    if s == [] then 0
    else ParseDecimal(s[..|s| - 1]) * 10 + (s[|s| - 1] as int - '0' as int)
  }

  /** Reading back what `Decimal` wrote gives the number again. */
  lemma {:induction false} ParseDecimalInverse(n: nat)
    ensures ParseDecimal(Decimal(n)) == n
    decreases n
  {
    if n >= 10 {
      var r := Decimal(n);
      assert r[..|r| - 1] == Decimal(n / 10);
      ParseDecimalInverse(n / 10);
    }
  }

  /** Two numbers with the same decimal text are equal. */
  lemma DecimalInjective(a: nat, b: nat)
    requires Decimal(a) == Decimal(b)
    ensures a == b
  {
    ParseDecimalInverse(a);
    ParseDecimalInverse(b);
  }

  /** `s.padStart(width, c)` for a single-character pad string. */
  function PadStart(s: string, width: nat, c: char): string
  {
    if |s| >= width then s else seq(width - |s|, _ => c) + s
  }

  /** The padded string is `width` long (or as long as `s`, if longer), ends with `s`, and is `c` before it. */
  lemma PadStartShape(s: string, width: nat, c: char)
    ensures var r := PadStart(s, width, c);
            && |r| == (if |s| >= width then |s| else width)
            && r[|r| - |s|..] == s
            && forall i :: 0 <= i < |r| - |s| ==> r[i] == c
  {
  }

  /** Small numbers written by `Decimal` and padded to two places are their two digits. */
  lemma TwoDigits(n: nat)
    requires n < 100
    ensures PadStart(Decimal(n), 2, '0') == [DigitChar(n / 10), DigitChar(n % 10)]
  {
    if n >= 10 {
      assert Decimal(n) == Decimal(n / 10) + [DigitChar(n % 10)];
      assert Decimal(n / 10) == [DigitChar(n / 10)];
    }
  }

  /** The shape of `Decimal` for one- and two-digit numbers. */
  lemma SmallDecimal(n: nat)
    requires n < 100
    ensures n < 10 ==> Decimal(n) == [DigitChar(n)]
    ensures 10 <= n ==> Decimal(n) == [DigitChar(n / 10), DigitChar(n % 10)]
  {
  }

  // ---------------------------------------------------------------- case and search

  /** `toLowerCase` on one character; only the ASCII letters are mapped. */
  function LowerChar(c: char): char
  {
    if 'A' <= c <= 'Z' then (c as int + 32) as char else c
  }

  function ToLower(s: string): (r: string)
    ensures |r| == |s|
    ensures forall i :: 0 <= i < |s| ==> r[i] == LowerChar(s[i])
  {
    seq(|s|, i requires 0 <= i < |s| => LowerChar(s[i]))
  }

  /** `s.includes(sub)`. */
  predicate Contains(s: string, sub: string)
  {
    exists i | 0 <= i <= |s| :: OccursAt(s, sub, i)
  }

  /** `sub` appears in `s` starting at index `i`. */
  predicate OccursAt(s: string, sub: string, i: int)
  {
    0 <= i && i + |sub| <= |s| && s[i..i + |sub|] == sub
  }

  // ---------------------------------------------------------------- join

  /** `cells.join("")`. */
  function Join(cells: seq<string>): string
  {
    if cells == [] then "" else Join(cells[..|cells| - 1]) + cells[|cells| - 1]
  }

  /**
   * When every cell holds at most one character, the joined text has one
   * character per cell exactly when no cell is empty.
   */
  lemma {:induction false} JoinLengthOfCells(cells: seq<string>)
    requires forall i :: 0 <= i < |cells| ==> |cells[i]| <= 1
    ensures |Join(cells)| <= |cells|
    ensures |Join(cells)| == |cells| <==> forall i :: 0 <= i < |cells| ==> |cells[i]| == 1
  {
    if cells != [] {
      var front := cells[..|cells| - 1];
      JoinLengthOfCells(front);
      assert forall i :: 0 <= i < |front| ==> front[i] == cells[i];
    }
  }

  // ---------------------------------------------------------------- order

  /** JavaScript's `a < b` on strings: lexicographic order on code units. */
  predicate LexLess(a: string, b: string)
  {
    || (exists i :: 0 <= i < |a| && i < |b| && a[..i] == b[..i] && a[i] < b[i])
    || (|a| < |b| && a == b[..|a|])
  }
}

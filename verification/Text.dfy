/** The Python string operations the pipeline uses, and the two moves of the readers that invert its printers. */
module Text {
  import opened Wrappers

  /** str.isspace for one character. */
  predicate IsSpace(c: char) {
    '\U{0009}' <= c <= '\U{000D}' || '\U{001C}' <= c <= '\U{0020}' || c == '\U{0085}' || c == '\U{00A0}'
    || c == '\U{1680}' || '\U{2000}' <= c <= '\U{200A}' || c == '\U{2028}' || c == '\U{2029}'
    || c == '\U{202F}' || c == '\U{205F}' || c == '\U{3000}'
  }

  predicate IsBracket(c: char) {
    c == '[' || c == ']'
  }

  function StripLeft(drop: char -> bool, s: string): string {
    if s != "" && drop(s[0]) then StripLeft(drop, s[1..]) else s
  }

  function StripRight(drop: char -> bool, s: string): string {
    if s != "" && drop(s[|s| - 1]) then StripRight(drop, s[..|s| - 1]) else s
  }

  /** s.strip(chars), the character set given as a predicate. */
  function StripOf(drop: char -> bool, s: string): string {
    StripRight(drop, StripLeft(drop, s))
  }

  function Strip(s: string): string {
    StripOf(IsSpace, s)
  }

  /** Neither end of s would be stripped. */
  predicate CleanEnds(drop: char -> bool, s: string) {
    s == "" || (!drop(s[0]) && !drop(s[|s| - 1]))
  }

  lemma {:induction false} StripLeftClean(drop: char -> bool, s: string)
    ensures StripLeft(drop, s) == "" || !drop(StripLeft(drop, s)[0])
    ensures |StripLeft(drop, s)| <= |s|
    ensures StripLeft(drop, s) == s[|s| - |StripLeft(drop, s)|..]
  {
    if s != "" && drop(s[0]) {
      StripLeftClean(drop, s[1..]);
    }
  }

  lemma {:induction false} StripRightClean(drop: char -> bool, s: string)
    ensures StripRight(drop, s) == "" || !drop(StripRight(drop, s)[|StripRight(drop, s)| - 1])
    ensures |StripRight(drop, s)| <= |s|
    ensures StripRight(drop, s) == s[..|StripRight(drop, s)|]
  {
    if s != "" && drop(s[|s| - 1]) {
      StripRightClean(drop, s[..|s| - 1]);
    }
  }

  lemma {:induction false} StripLeftDrops(drop: char -> bool, s: string)
    ensures |StripLeft(drop, s)| <= |s| && forall k :: 0 <= k < |s| - |StripLeft(drop, s)| ==> drop(s[k])
  {
    if s != "" && drop(s[0]) {
      StripLeftDrops(drop, s[1..]);
      assert forall k :: 0 < k < |s| ==> s[k] == s[1..][k - 1];
    }
  }

  lemma {:induction false} StripRightDrops(drop: char -> bool, s: string)
    ensures |StripRight(drop, s)| <= |s| && forall k :: |StripRight(drop, s)| <= k < |s| ==> drop(s[k])
  {
    if s != "" && drop(s[|s| - 1]) {
      StripRightDrops(drop, s[..|s| - 1]);
    }
  }

  /** Stripping takes away only what may be dropped, from the two ends, and all of it. */
  lemma StripTakesEnds(drop: char -> bool, s: string) returns (before: string, after: string)
    ensures s == before + StripOf(drop, s) + after
    ensures (forall c :: c in before ==> drop(c)) && (forall c :: c in after ==> drop(c))
    ensures CleanEnds(drop, StripOf(drop, s))
  {
    hide CleanEnds, StripLeft, StripRight;
    var left := StripLeft(drop, s);
    StripIsClean(drop, s);
    StripLeftClean(drop, s);
    StripLeftDrops(drop, s);
    StripRightClean(drop, left);
    StripRightDrops(drop, left);
    before, after := s[..|s| - |left|], left[|StripOf(drop, s)|..];
    assert s == before + left && left == StripOf(drop, s) + after;
  }

  /** Stripping leaves clean ends, and clean text alone: it is idempotent. */
  lemma StripIsClean(drop: char -> bool, s: string)
    ensures CleanEnds(drop, StripOf(drop, s))
    ensures StripOf(drop, s) == s <==> CleanEnds(drop, s)
    ensures StripOf(drop, StripOf(drop, s)) == StripOf(drop, s)
  {
    var left := StripLeft(drop, s);
    StripLeftClean(drop, s);
    StripRightClean(drop, left);
  }

  lemma {:induction false} StripLeftAppend(drop: char -> bool, s: string, t: string)
    requires t != ""
    ensures StripLeft(drop, s + t) == if StripLeft(drop, s) == "" then StripLeft(drop, t) else StripLeft(drop, s) + t
  {
    if s == "" {
      assert s + t == t;
    } else {
      assert (s + t)[1..] == s[1..] + t;
      if drop(s[0]) {
        StripLeftAppend(drop, s[1..], t);
      }
    }
  }

  /** Dropping one strippable character at each end does not change what strip returns. */
  lemma StripWrapped(drop: char -> bool, open: char, s: string, close: char)
    requires drop(open) && drop(close)
    ensures StripOf(drop, [open] + s + [close]) == StripOf(drop, s)
  {
    var whole := [open] + s + [close];
    assert whole[1..] == s + [close];
    StripLeftAppend(drop, s, [close]);
    var left := StripLeft(drop, s);
    if left == "" {
      assert [close][1..] == "";
      assert StripLeft(drop, [close]) == "";
    } else {
      assert (left + [close])[..|left|] == left;
    }
  }

  predicate OccursAt(s: string, part: string, i: int) {
    0 <= i && i + |part| <= |s| && s[i..i + |part|] == part
  }

  /** part in s */
  predicate Contains(s: string, part: string) {
    exists i :: 0 <= i <= |s| && OccursAt(s, part, i)
  }

  lemma ContainsChars(s: string, part: string, k: nat)
    requires k < |part|
    ensures Contains(s, part) ==> part[k] in s
  {
    if i :| 0 <= i <= |s| && OccursAt(s, part, i) {
      assert s[i..i + |part|][k] == s[i + k];
    }
  }

  function Join(separator: string, parts: seq<string>): string {
    if parts == [] then ""
    else if |parts| == 1 then parts[0]
    else parts[0] + separator + Join(separator, parts[1..])
  }

  const DIGITS := "0123456789"

  /** str(n) */
  function Decimal(n: nat): (s: string)
    ensures s != ""
  {
    if n < 10 then [DIGITS[n]] else Decimal(n / 10) + [DIGITS[n % 10]]
  }

  /** The number a string of digits stands for. */
  function DigitsValue(s: string): int {
    if s == "" then 0 else DigitsValue(s[..|s| - 1]) * 10 + (s[|s| - 1] as int - '0' as int)
  }

  lemma DigitValue(n: nat)
    requires n < 10
    ensures DIGITS[n] as int - '0' as int == n
  {
  }

  /** str(n), read as a decimal number, is n, and it is digits throughout. */
  lemma {:induction false} DecimalReadsBack(n: nat)
    ensures DigitsValue(Decimal(n)) == n
    ensures forall c :: c in Decimal(n) ==> '0' <= c <= '9'
  {
    var s := Decimal(n);
    DigitValue(n % 10);
    if n < 10 {
      assert s[..0] == "";
    } else {
      DecimalReadsBack(n / 10);
      assert s[..|s| - 1] == Decimal(n / 10);
    }
  }

  lemma DigitsDiffer(a: nat, b: nat)
    requires a < 10 && b < 10 && DIGITS[a] == DIGITS[b]
    ensures a == b
  {
  }

  lemma {:induction false} DecimalInjective(a: nat, b: nat)
    requires Decimal(a) == Decimal(b)
    ensures a == b
  {
    if a < 10 && b < 10 {
      DigitsDiffer(a, b);
    } else if a >= 10 && b >= 10 {
      var s, t := Decimal(a), Decimal(b);
      assert s[..|s| - 1] == Decimal(a / 10) && t[..|t| - 1] == Decimal(b / 10);
      assert s[|s| - 1] == DIGITS[a % 10] && t[|t| - 1] == DIGITS[b % 10];
      DecimalInjective(a / 10, b / 10);
      DigitsDiffer(a % 10, b % 10);
    }
  }

  /** a <= b, character by character (Python compares code points). */
  predicate AtMost(a: string, b: string) {
    a == "" || (b != "" && (a[0] < b[0] || (a[0] == b[0] && AtMost(a[1..], b[1..]))))
  }

  lemma {:induction false} AtMostTotal(a: string, b: string)
    ensures AtMost(a, b) || AtMost(b, a)
    ensures AtMost(a, b) && AtMost(b, a) ==> a == b
  {
    if a != "" && b != "" {
      AtMostTotal(a[1..], b[1..]);
      assert a == [a[0]] + a[1..] && b == [b[0]] + b[1..];
    }
  }

  lemma {:induction false} AtMostTransitive(a: string, b: string, c: string)
    requires AtMost(a, b) && AtMost(b, c)
    ensures AtMost(a, c)
  {
    if a != "" && a[0] == b[0] && b[0] == c[0] {
      AtMostTransitive(a[1..], b[1..], c[1..]);
    }
  }

  // ---------- Reading printed text back ----------

  /** Splits s at the first stop, which is dropped. */
  function UpTo(stop: char, s: string): (r: Option<(string, string)>)
    ensures r.Some? ==> stop !in r.value.0 && |r.value.1| < |s|
  {
    if s == "" then None
    else if s[0] == stop then Some(("", s[1..]))
    else
      var (head, rest) :- UpTo(stop, s[1..]);
      Some(([s[0]] + head, rest))
  }

  /** What follows the expected text, if s starts with it. */
  function After(expected: string, s: string): Option<string> {
    if expected <= s then Some(s[|expected|..]) else None
  }

  lemma {:induction false} UpToStops(stop: char, head: string, rest: string)
    requires stop !in head
    ensures UpTo(stop, head + ([stop] + rest)) == Some((head, rest))
  {
    var s := head + ([stop] + rest);
    if head == "" {
      assert s == [stop] + rest && s[1..] == rest;
    } else {
      assert s[1..] == head[1..] + ([stop] + rest);
      UpToStops(stop, head[1..], rest);
      assert head == [head[0]] + head[1..];
    }
  }

  lemma AfterPrefix(expected: string, rest: string)
    ensures After(expected, expected + rest) == Some(rest)
  {
    assert (expected + rest)[..|expected|] == expected;
    assert (expected + rest)[|expected|..] == rest;
  }
}

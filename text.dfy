/**
 * The string primitives the weather client relies on, written out:
 * `str.isspace`, `str.strip`, `str.isdigit`, `str.lower`, `str.title`
 * and `str.replace("-", "")`.
 */
module Text {

  /** Python's whitespace test for one character (the set CPython's `str.isspace` and `str.strip` use). */
  predicate IsSpace(c: char) {
    var n := c as int;
    (9 <= n <= 13) || (28 <= n <= 32) || n == 0x85 || n == 0xA0 || n == 0x1680
    || (0x2000 <= n <= 0x200A) || n == 0x2028 || n == 0x2029 || n == 0x202F
    || n == 0x205F || n == 0x3000
  }

  /** Empty or made only of whitespace: `not s or s.isspace()`. */
  predicate IsBlank(s: string) {
    forall i | 0 <= i < |s| :: IsSpace(s[i])
  }

  /** The number of whitespace characters `s` starts with. */
  function LeadingSpaces(s: string): (n: nat)
    ensures n <= |s|
    ensures forall i | 0 <= i < n :: IsSpace(s[i])
    ensures n < |s| ==> !IsSpace(s[n])
  {
    if s != [] && IsSpace(s[0]) then
      var n := LeadingSpaces(s[1..]);
      assert forall i | 1 <= i < n + 1 :: s[i] == s[1..][i - 1];
      n + 1
    else 0
  }

  /** The number of whitespace characters `s` ends with. */
  function TrailingSpaces(s: string): (n: nat)
    ensures n <= |s|
    ensures forall i | |s| - n <= i < |s| :: IsSpace(s[i])
    ensures n < |s| ==> !IsSpace(s[|s| - n - 1])
  {
    if s != [] && IsSpace(s[|s| - 1]) then
      var n := TrailingSpaces(s[..|s| - 1]);
      assert forall i | |s| - 1 - n <= i < |s| - 1 :: s[i] == s[..|s| - 1][i];
      n + 1
    else 0
  }

  /** `s.strip()`: the text between the leading and the trailing whitespace. */
  function Strip(s: string): (r: string)
    ensures |r| <= |s|
    ensures r == [] <==> IsBlank(s)
    ensures r == [] || (!IsSpace(r[0]) && !IsSpace(r[|r| - 1]))
    ensures var a := LeadingSpaces(s);
      && a + |r| <= |s| && r == s[a..a + |r|]
      && IsBlank(s[..a]) && IsBlank(s[a + |r|..])
  {
    var a := LeadingSpaces(s);
    var t := s[a..];
    var b := TrailingSpaces(t);
    StripPieces(s, a, t, b);
    StripEnds(s, a, t, b);
    StripBlank(s, a, t, b);
    t[..|t| - b]
  }

  lemma StripPieces(s: string, a: nat, t: string, b: nat)
    requires a == LeadingSpaces(s) && t == s[a..] && b == TrailingSpaces(t)
    ensures var r := t[..|t| - b];
      && a + |r| <= |s| && r == s[a..a + |r|]
      && IsBlank(s[..a]) && IsBlank(s[a + |r|..])
  {
    PrefixBlank(s, a);
    SuffixBlank(s, a, t, b);
  }

  lemma PrefixBlank(s: string, a: nat)
    requires a == LeadingSpaces(s)
    ensures IsBlank(s[..a])
  {
    var prefix := s[..a];
    assert forall i | 0 <= i < |prefix| :: prefix[i] == s[i];
  }

  lemma SuffixBlank(s: string, a: nat, t: string, b: nat)
    requires a == LeadingSpaces(s) && t == s[a..] && b == TrailingSpaces(t)
    ensures a + |t| - b <= |s| && IsBlank(s[a + |t| - b..])
  {
    TailBlank(t, b);
    SliceOfSuffix(s, a, t, |t| - b);
    assert s[a + |t| - b..] == t[|t| - b..];
  }

  lemma TailBlank(t: string, b: nat)
    requires b <= |t| && forall i | |t| - b <= i < |t| :: IsSpace(t[i])
    ensures IsBlank(t[|t| - b..])
  {
    var tail := t[|t| - b..];
    assert forall i | 0 <= i < |tail| :: tail[i] == t[|t| - b + i];
  }

  lemma SliceOfSuffix(s: string, a: nat, t: string, k: nat)
    requires a <= |s| && t == s[a..] && k <= |t|
    ensures a + k <= |s| && s[a + k..] == t[k..]
  {
  }

  lemma StripEnds(s: string, a: nat, t: string, b: nat)
    requires a == LeadingSpaces(s) && t == s[a..] && b == TrailingSpaces(t)
    ensures var r := t[..|t| - b];
      r == [] || (!IsSpace(r[0]) && !IsSpace(r[|r| - 1]))
  {
    if b < |t| {
      assert t[0] == s[a];
    }
  }

  lemma StripBlank(s: string, a: nat, t: string, b: nat)
    requires a == LeadingSpaces(s) && t == s[a..] && b == TrailingSpaces(t)
    ensures t[..|t| - b] == [] <==> IsBlank(s)
  {
    if a < |s| {
      assert t[0] == s[a];
    }
  }

  /** Stripping twice is stripping once. */
  lemma StripIdempotent(s: string)
    ensures Strip(Strip(s)) == Strip(s)
  {
    StripKeepsTrimmed(Strip(s));
  }

  /** A string with no whitespace at either end is its own strip. */
  lemma StripKeepsTrimmed(s: string)
    requires s == [] || (!IsSpace(s[0]) && !IsSpace(s[|s| - 1]))
    ensures Strip(s) == s
  {
    assert LeadingSpaces(s) == 0;
    assert s[0..] == s;
  }

  /** Python's `str.isdigit` restricted to the ASCII digits. */
  predicate IsDigit(c: char) {
    '0' <= c <= '9'
  }

  /** `s.isdigit()`: non-empty and every character a digit. */
  predicate AllDigits(s: string) {
    |s| > 0 && OnlyDigits(s)
  }

  /** The number of digit characters in `s`. */
  function CountDigits(s: string): nat {
    if s == [] then 0 else (if IsDigit(s[0]) then 1 else 0) + CountDigits(s[1..])
  }

  /** `s.replace("-", "")`: every character of `s` except the hyphens, in order. */
  function RemoveHyphens(s: string): (r: string)
    ensures '-' !in r
    ensures |r| == |s| - multiset(s)['-']
    ensures forall c {:trigger multiset(r)[c]} :: c != '-' ==> multiset(r)[c] == multiset(s)[c]
  {
    if s == [] then []
    else
      assert s == [s[0]] + s[1..];
      (if s[0] == '-' then [] else [s[0]]) + RemoveHyphens(s[1..])
  }

  /** Every character of `s` is a digit (the empty string included). */
  predicate OnlyDigits(s: string) {
    forall i | 0 <= i < |s| :: IsDigit(s[i])
  }

  /** Every character of `s` is a digit or a hyphen. */
  predicate DigitsAndHyphens(s: string) {
    forall i | 0 <= i < |s| :: IsDigit(s[i]) || s[i] == '-'
  }

  /** What is left after removing the hyphens is all digits exactly when `s` holds only
      digits and hyphens, and it then has one character per digit of `s`. */
  lemma {:induction false} RemoveHyphensDigits(s: string)
    ensures OnlyDigits(RemoveHyphens(s)) <==> DigitsAndHyphens(s)
    ensures DigitsAndHyphens(s) ==> |RemoveHyphens(s)| == CountDigits(s)
  {
    if s != [] {
      RemoveHyphensDigits(s[1..]);
      var rest := RemoveHyphens(s[1..]);
      var r := RemoveHyphens(s);
      assert DigitsAndHyphens(s) <==> (IsDigit(s[0]) || s[0] == '-') && DigitsAndHyphens(s[1..]) by {
        assert forall i | 0 < i < |s| :: s[i] == s[1..][i - 1];
      }
      if s[0] == '-' {
        assert r == rest;
      } else {
        assert r == [s[0]] + rest;
        assert OnlyDigits(r) <==> IsDigit(s[0]) && OnlyDigits(rest) by {
          assert r[0] == s[0];
          assert forall i | 0 < i < |r| :: r[i] == rest[i - 1];
          assert forall j | 0 <= j < |rest| :: rest[j] == r[j + 1];
        }
      }
    }
  }

  /** `s.replace("-", "").isdigit()` holds exactly when `s` holds nothing but digits and
      hyphens and at least one digit; the digit string then has one character per digit. */
  lemma RemoveHyphensAllDigits(s: string)
    ensures AllDigits(RemoveHyphens(s)) <==> DigitsAndHyphens(s) && CountDigits(s) > 0
    ensures DigitsAndHyphens(s) ==> |RemoveHyphens(s)| == CountDigits(s)
  {
    RemoveHyphensDigits(s);
  }

  /** The lower-case form of an ASCII upper-case letter; every other character is kept. */
  function LowerChar(c: char): char {
    if 'A' <= c <= 'Z' then (c as int + 32) as char else c
  }

  /** The upper-case form of an ASCII lower-case letter; every other character is kept. */
  function UpperChar(c: char): char {
    if 'a' <= c <= 'z' then (c as int - 32) as char else c
  }

  /** A letter that has case, in the ASCII approximation of Unicode. */
  predicate IsCased(c: char) {
    'a' <= c <= 'z' || 'A' <= c <= 'Z'
  }

  /** `s.lower()` on ASCII letters. */
  function ToLower(s: string): (r: string)
    ensures |r| == |s|
    ensures forall i | 0 <= i < |r| :: !('A' <= r[i] <= 'Z')
    ensures forall i | 0 <= i < |s| :: 'A' <= s[i] <= 'Z' ==> r[i] as int == s[i] as int + 32
    ensures forall i | 0 <= i < |s| :: !('A' <= s[i] <= 'Z') ==> r[i] == s[i]
  {
    seq(|s|, i requires 0 <= i < |s| => LowerChar(s[i]))
  }

  /** `str.title()` continued after a character that was (`afterCased`) or was not cased:
      the first letter of each word is upper case, every other letter lower case. */
  function TitleFrom(s: string, afterCased: bool): (r: string)
    ensures |r| == |s|
  {
    if s == [] then []
    else [if afterCased then LowerChar(s[0]) else UpperChar(s[0])] + TitleFrom(s[1..], IsCased(s[0]))
  }

  /** `s.title()`. */
  function TitleCase(s: string): (r: string)
    ensures |r| == |s|
  {
    TitleFrom(s, false)
  }

  /** The placeholder "N/A" is already in title case. */
  lemma TitleOfNotAvailable()
    ensures TitleCase("N/A") == "N/A"
  {
    assert TitleFrom("A", false) == "A";
    assert TitleFrom("/A", true) == "/A" by { assert "/A"[1..] == "A"; }
    assert "N/A"[1..] == "/A";
  }

  /** Title casing keeps which characters are cased, so it sees the same word boundaries again. */
  lemma {:induction false} TitleFromIdempotent(s: string, afterCased: bool)
    ensures TitleFrom(TitleFrom(s, afterCased), afterCased) == TitleFrom(s, afterCased)
  {
    if s != [] {
      var r := TitleFrom(s, afterCased);
      assert r[1..] == TitleFrom(s[1..], IsCased(s[0]));
      assert IsCased(r[0]) == IsCased(s[0]);
      TitleFromIdempotent(s[1..], IsCased(s[0]));
    }
  }

  /** `s.title().title() == s.title()`. */
  lemma TitleCaseIdempotent(s: string)
    ensures TitleCase(TitleCase(s)) == TitleCase(s)
  {
    TitleFromIdempotent(s, false);
  }
}

/**
 * String helpers with the exact semantics of the Python and JavaScript
 * string methods the system relies on: whitespace trimming, substring
 * search, `split`/`join`/`replace`, ASCII case mapping and integer
 * rendering.  Strings are sequences of Unicode scalar values.
 */
module Text {
  import opened Wrappers

  // ---------------------------------------------------------------
  // Whitespace
  // ---------------------------------------------------------------

  /** Python's `str.isspace` for a single character. */
  predicate IsPySpace(c: char) {
    c == ' ' || ('\t' <= c <= '\r') || ('\U{1C}' <= c <= '\U{1F}') || c == '\U{85}' || c == '\U{A0}'
    || c == '\U{1680}' || ('\U{2000}' <= c <= '\U{200A}') || c == '\U{2028}' || c == '\U{2029}'
    || c == '\U{202F}' || c == '\U{205F}' || c == '\U{3000}'
  }

  /** JavaScript's `\s` class and `String.prototype.trim` whitespace. */
  predicate IsJsSpace(c: char) {
    c == ' ' || ('\t' <= c <= '\r') || c == '\U{A0}' || c == '\U{1680}' || ('\U{2000}' <= c <= '\U{200A}')
    || c == '\U{2028}' || c == '\U{2029}' || c == '\U{202F}' || c == '\U{205F}' || c == '\U{3000}'
    || c == '\U{FEFF}'
  }

  function TrimLeftBy(s: string, sp: char -> bool): (r: string)
    ensures |r| <= |s| && r == s[|s| - |r|..]
    ensures forall i :: 0 <= i < |s| - |r| ==> sp(s[i])
    ensures |r| > 0 ==> !sp(r[0])
  {
    if |s| > 0 && sp(s[0]) then
      var r := TrimLeftBy(s[1..], sp);
      assert s[1..][|s| - 1 - |r|..] == s[|s| - |r|..];
      assert forall i :: 1 <= i < |s| - |r| ==> s[i] == s[1..][i - 1];
      r
    else s
  }

  function TrimRightBy(s: string, sp: char -> bool): (r: string)
    ensures |r| <= |s| && r == s[..|r|]
    ensures forall i :: |r| <= i < |s| ==> sp(s[i])
    ensures |r| > 0 ==> !sp(r[|r| - 1])
  {
    if |s| > 0 && sp(s[|s| - 1]) then TrimRightBy(s[..|s| - 1], sp) else s
  }

  function TrimBy(s: string, sp: char -> bool): string {
    TrimRightBy(TrimLeftBy(s, sp), sp)
  }

  /** Python `str.strip()`. */
  function Strip(s: string): string { TrimBy(s, IsPySpace) }

  /** Python `str.lstrip()`. */
  function StripLeft(s: string): string { TrimLeftBy(s, IsPySpace) }

  /** JavaScript `String.prototype.trim()`. */
  function JsTrim(s: string): string { TrimBy(s, IsJsSpace) }

  predicate AllSpace(s: string) { forall i :: 0 <= i < |s| ==> IsPySpace(s[i]) }

  /** The trimmed text is a contiguous piece of the input with only whitespace cut off both ends. */
  lemma StripShape(s: string)
    ensures exists a, b :: 0 <= a <= b <= |s| && Strip(s) == s[a..b]
              && AllSpace(s[..a]) && AllSpace(s[b..])
    ensures |Strip(s)| > 0 ==> !IsPySpace(Strip(s)[0]) && !IsPySpace(Strip(s)[|Strip(s)| - 1])
  {
    var a, b := TrimShape(s, IsPySpace);
    assert AllSpace(s[..a]);
    assert AllSpace(s[b..]) by {
      forall i | 0 <= i < |s| - b ensures IsPySpace(s[b..][i]) {
        assert s[b..][i] == s[b + i];
      }
    }
  }

  /** Trimming by any class of characters cuts a run of them off each end and nothing else. */
  lemma TrimShape(s: string, sp: char -> bool) returns (a: nat, b: nat)
    ensures a <= b <= |s| && TrimBy(s, sp) == s[a..b]
    ensures forall i :: 0 <= i < a ==> sp(s[i])
    ensures forall i :: b <= i < |s| ==> sp(s[i])
    ensures |TrimBy(s, sp)| > 0 ==> !sp(TrimBy(s, sp)[0]) && !sp(TrimBy(s, sp)[|TrimBy(s, sp)| - 1])
  {
    var l := TrimLeftBy(s, sp);
    a := |s| - |l|;
    b := a + |TrimRightBy(l, sp)|;
    forall i | b <= i < |s| ensures sp(s[i]) {
      assert s[i] == l[i - a];
    }
  }

  lemma TrimLeftNoSpace(s: string, sp: char -> bool)
    requires |s| == 0 || !sp(s[0])
    ensures TrimLeftBy(s, sp) == s
  {}

  lemma TrimRightNoSpace(s: string, sp: char -> bool)
    requires |s| == 0 || !sp(s[|s| - 1])
    ensures TrimRightBy(s, sp) == s
  {}

  /** Trimming twice changes nothing more. */
  lemma StripIdempotent(s: string)
    ensures Strip(Strip(s)) == Strip(s)
  {
    var t := Strip(s);
    StripShape(s);
    if |t| > 0 {
      TrimLeftNoSpace(t, IsPySpace);
      TrimRightNoSpace(t, IsPySpace);
    }
  }

  /** Python `s.rstrip(c)` for a single character `c`: every trailing `c` goes. */
  function RStripChar(s: string, c: char): (r: string)
    ensures |r| <= |s| && r == s[..|r|]
    ensures |r| == 0 || r[|r| - 1] != c
    ensures forall i :: |r| <= i < |s| ==> s[i] == c
  {
    if |s| > 0 && s[|s| - 1] == c then RStripChar(s[..|s| - 1], c) else s
  }

  // ---------------------------------------------------------------
  // Prefixes and substring search
  // ---------------------------------------------------------------

  predicate StartsWith(s: string, p: string) { |p| <= |s| && s[..|p|] == p }

  predicate EndsWith(s: string, p: string) { |p| <= |s| && s[|s| - |p|..] == p }

  predicate OccursAt(s: string, p: string, i: int) {
    0 <= i && i + |p| <= |s| && s[i..i + |p|] == p
  }

  /** The first position at or after `from` where `p` occurs. */
  function IndexFrom(s: string, p: string, from: nat): (r: Option<nat>)
    ensures r.Some? ==> from <= r.value && OccursAt(s, p, r.value)
                        && forall j :: from <= j < r.value ==> !OccursAt(s, p, j)
    ensures r.None? ==> forall j :: from <= j ==> !OccursAt(s, p, j)
    decreases |s| - from
  {
    if from + |p| > |s| then None
    else if s[from..from + |p|] == p then Some(from)
    else IndexFrom(s, p, from + 1)
  }

  /** Python `s.find(p)` (as an Option) — the leftmost occurrence. */
  function IndexOf(s: string, p: string): Option<nat> { IndexFrom(s, p, 0) }

  /** An occurrence with no earlier position holding the separator's first character is the first one. */
  lemma {:induction false} IndexFromAt(s: string, p: string, from: nat, k: nat)
    requires |p| > 0 && from <= k && OccursAt(s, p, k)
    requires forall j :: from <= j < k ==> s[j] != p[0]
    ensures IndexFrom(s, p, from) == Some(k)
    decreases k - from
  {
    if from < k {
      assert s[from] != p[0];
      assert !OccursAt(s, p, from) by {
        if from + |p| <= |s| { assert s[from..from + |p|][0] == s[from]; }
      }
      IndexFromAt(s, p, from + 1, k);
    }
  }

  lemma OccursAtStart(s: string, p: string, k: int)
    requires |p| > 0 && OccursAt(s, p, k)
    ensures s[k] == p[0]
  {
    assert s[k..k + |p|][0] == s[k];
  }

  lemma IndexOfAt(s: string, p: string, k: nat)
    requires |p| > 0 && OccursAt(s, p, k)
    requires forall j :: 0 <= j < k ==> s[j] != p[0]
    ensures IndexOf(s, p) == Some(k)
  {
    IndexFromAt(s, p, 0, k);
  }

  /** A separator cannot occur before the first position holding its first character. */
  lemma IndexOfNotBefore(s: string, p: string, m: nat)
    requires |p| > 0
    requires forall j :: 0 <= j < m && j < |s| ==> s[j] != p[0]
    ensures IndexOf(s, p).Some? ==> IndexOf(s, p).value >= m
  {
    if IndexOf(s, p).Some? {
      OccursAtStart(s, p, IndexOf(s, p).value);
    }
  }

  /** A text lacking one of the pattern's characters does not contain the pattern. */
  lemma {:induction false} MissingCharNotContained(s: string, p: string, k: nat, from: nat)
    requires k < |p| && forall j :: 0 <= j < |s| ==> s[j] != p[k]
    ensures IndexFrom(s, p, from).None?
    decreases |s| - from
  {
    if from + |p| <= |s| {
      assert s[from..from + |p|][k] != p[k];
      MissingCharNotContained(s, p, k, from + 1);
    }
  }

  /** Python `p in s`. */
  predicate Contains(s: string, p: string) { IndexOf(s, p).Some? }

  lemma ContainsIff(s: string, p: string)
    ensures Contains(s, p) <==> exists i :: OccursAt(s, p, i)
  {}

  /** Python `s.split(sep)[0]`: the text before the first `sep`, or all of `s`. */
  function Before(s: string, sep: string): string {
    match IndexOf(s, sep)
    case Some(i) => s[..i]
    case None => s
  }

  /** The text after the first `sep`. */
  function After(s: string, sep: string): (r: string)
    requires Contains(s, sep)
    ensures |r| + |sep| <= |s|
  {
    s[IndexOf(s, sep).value + |sep|..]
  }

  /** The text before the first occurrence of `sep` holds no occurrence of it. */
  lemma BeforeHasNoSep(s: string, sep: string)
    requires |sep| > 0
    ensures !Contains(Before(s, sep), sep)
  {
    if IndexOf(s, sep).Some? {
      var i := IndexOf(s, sep).value;
      var b := s[..i];
      forall j | OccursAt(b, sep, j) ensures false {
        assert j < i;
        assert b[j..j + |sep|] == s[j..j + |sep|];
        assert OccursAt(s, sep, j);
      }
    }
  }

  /** Python `s.split(sep)[1]` when `sep` occurs in `s`. */
  function Piece1(s: string, sep: string): string
    requires Contains(s, sep)
  {
    Before(After(s, sep), sep)
  }

  // ---------------------------------------------------------------
  // split / join / replace
  // ---------------------------------------------------------------

  /** Python `s.split(sep)` for a non-empty separator. */
  function Split(s: string, sep: string): (parts: seq<string>)
    requires |sep| > 0
    ensures |parts| >= 1
    ensures forall k :: 0 <= k < |parts| ==> !Contains(parts[k], sep)
    ensures parts[0] == Before(s, sep)
    decreases |s|
  {
    BeforeHasNoSep(s, sep);
    if Contains(s, sep) then [Before(s, sep)] + Split(After(s, sep), sep) else [s]
  }

  /** Python `sep.join(parts)`. */
  function Join(parts: seq<string>, sep: string): string {
    if |parts| == 0 then ""
    else if |parts| == 1 then parts[0]
    else parts[0] + sep + Join(parts[1..], sep)
  }

  /** Python `s.replace(pat, rep)` for a non-empty `pat`. */
  function ReplaceAll(s: string, pat: string, rep: string): string
    requires |pat| > 0
  {
    Join(Split(s, pat), rep)
  }

  lemma JoinCons(head: string, tail: seq<string>, sep: string)
    requires |tail| > 0
    ensures Join([head] + tail, sep) == head + sep + Join(tail, sep)
  {
    assert ([head] + tail)[1..] == tail;
  }

  lemma {:induction false} SplitJoin(s: string, sep: string)
    requires |sep| > 0
    ensures Join(Split(s, sep), sep) == s
    decreases |s|
  {
    if Contains(s, sep) {
      var i := IndexOf(s, sep).value;
      var rest := After(s, sep);
      SplitJoin(rest, sep);
      var tail := Split(rest, sep);
      var parts := [s[..i]] + tail;
      assert Split(s, sep) == parts;
      JoinCons(s[..i], tail, sep);
      assert s[i..i + |sep|] == sep;
      SliceThree(s, i, i + |sep|);
    }
  }

  lemma SliceThree(s: string, i: nat, j: nat)
    requires i <= j <= |s|
    ensures s == s[..i] + s[i..j] + s[j..]
  {
    assert s[..j] == s[..i] + s[i..j];
  }

  /** Replacing a separator by itself changes nothing. */
  lemma ReplaceIdentity(s: string, pat: string)
    requires |pat| > 0
    ensures ReplaceAll(s, pat, pat) == s
  {
    SplitJoin(s, pat);
  }

  /** Text without the searched-for piece is left as it is. */
  lemma ReplaceAbsent(s: string, pat: string, rep: string)
    requires |pat| > 0 && !Contains(s, pat)
    ensures ReplaceAll(s, pat, rep) == s
  {}

  /** A text ending in its only occurrence of the pattern gets that occurrence replaced. */
  lemma ReplaceAtEnd(a: string, pat: string, rep: string)
    requires |pat| > 0
    requires forall j :: 0 <= j < |a| ==> a[j] != pat[0]
    ensures ReplaceAll(a + pat, pat, rep) == a + rep
  {
    var s := a + pat;
    assert s[|a|..|a| + |pat|] == pat;
    assert forall j :: 0 <= j < |a| ==> s[j] == a[j];
    IndexOfAt(s, pat, |a|);
    assert After(s, pat) == [];
    assert s[..|a|] == a;
    assert Split(s, pat) == [a] + Split([], pat);
    assert Split([], pat) == [""];
    assert Join([a, ""], rep) == a + rep + "";
    assert [a] + [""] == [a, ""];
  }

  // ---------------------------------------------------------------
  // Words and lines
  // ---------------------------------------------------------------

  /** The characters up to the first Python whitespace. */
  function TakeWord(s: string): (r: string)
    ensures |r| <= |s| && r == s[..|r|]
    ensures forall i :: 0 <= i < |r| ==> !IsPySpace(r[i])
    ensures |r| < |s| ==> IsPySpace(s[|r|])
  {
    if |s| == 0 || IsPySpace(s[0]) then "" else [s[0]] + TakeWord(s[1..])
  }

  /** A string without whitespace is one whole word. */
  lemma {:induction false} TakeWordOfWord(s: string)
    requires forall i :: 0 <= i < |s| ==> !IsPySpace(s[i])
    ensures TakeWord(s) == s
  {
    if |s| > 0 {
      TakeWordOfWord(s[1..]);
      assert s == [s[0]] + s[1..];
    }
  }

  /** Python `s.split()` with no argument, as a list of words. */
  function Words(s: string): (ws: seq<string>)
    ensures forall k :: 0 <= k < |ws| ==> |ws[k]| > 0
    decreases |s|
  {
    var t := StripLeft(s);
    if |t| == 0 then [] else
      var w := TakeWord(t);
      FirstWordNonEmpty(s);
      var rest := Words(t[|w|..]);
      NonEmptyCons(w, rest);
      [w] + rest
  }

  lemma NonEmptyCons(w: string, rest: seq<string>)
    requires |w| > 0 && forall k :: 0 <= k < |rest| ==> |rest[k]| > 0
    ensures forall k :: 0 <= k < |[w] + rest| ==> |([w] + rest)[k]| > 0
  {
    assert forall k :: 0 < k < |rest| + 1 ==> ([w] + rest)[k] == rest[k - 1];
  }

  /** After leading whitespace is stripped, a non-empty text starts with a non-empty word. */
  lemma FirstWordNonEmpty(s: string)
    requires |StripLeft(s)| > 0
    ensures |TakeWord(StripLeft(s))| > 0
  {
    assert !IsPySpace(StripLeft(s)[0]);
  }

  /** Python `s.split()[0]` when there is a word. */
  lemma FirstWordIsTakeWord(s: string)
    requires |Strip(s)| > 0
    ensures |Words(Strip(s))| > 0 && Words(Strip(s))[0] == TakeWord(Strip(s))
  {
    StripShape(s);
    TrimLeftNoSpace(Strip(s), IsPySpace);
  }

  // ---------------------------------------------------------------
  // Case mapping (ASCII letters)
  // ---------------------------------------------------------------

  function UpperChar(c: char): char {
    if 'a' <= c <= 'z' then (c as int - 32) as char else c
  }

  function LowerChar(c: char): char {
    if 'A' <= c <= 'Z' then (c as int + 32) as char else c
  }

  /** `str.upper()` on ASCII letters. */
  function Upper(s: string): (r: string)
    ensures |r| == |s| && forall i :: 0 <= i < |s| ==> r[i] == UpperChar(s[i])
  {
    seq(|s|, i requires 0 <= i < |s| => UpperChar(s[i]))
  }

  /** `str.lower()` on ASCII letters. */
  function Lower(s: string): (r: string)
    ensures |r| == |s| && forall i :: 0 <= i < |s| ==> r[i] == LowerChar(s[i])
  {
    seq(|s|, i requires 0 <= i < |s| => LowerChar(s[i]))
  }

  // ---------------------------------------------------------------
  // Numbers
  // ---------------------------------------------------------------

  function DigitChar(d: nat): char
    requires d < 10
  {
    ('0' as int + d) as char
  }

  predicate IsDigit(c: char) { '0' <= c <= '9' }

  function DigitValue(c: char): nat
    requires IsDigit(c)
  {
    c as int - '0' as int
  }

  /** Python `str(n)` for a natural number: decimal without leading zeros. */
  function NatToString(n: nat): (r: string)
    ensures |r| > 0 && forall i :: 0 <= i < |r| ==> IsDigit(r[i])
    ensures |r| > 1 ==> r[0] != '0'
  {
    if n < 10 then [DigitChar(n)] else NatToString(n / 10) + [DigitChar(n % 10)]
  }

  /** Python `str(n)` for any integer. */
  function IntToString(n: int): string {
    if n < 0 then "-" + NatToString(-n) else NatToString(n)
  }

  /** The value of a run of decimal digits (JavaScript `parseInt` on a digit run). */
  function DigitsValue(s: string): nat
    requires forall i :: 0 <= i < |s| ==> IsDigit(s[i])
  {
    if |s| == 0 then 0 else DigitsValue(s[..|s| - 1]) * 10 + DigitValue(s[|s| - 1])
  }

  /** Rendering a natural number and reading the digits back gives the number. */
  lemma {:induction false} NatToStringRoundTrip(n: nat)
    ensures DigitsValue(NatToString(n)) == n
  {
    var r := NatToString(n);
    if n >= 10 {
      NatToStringRoundTrip(n / 10);
      assert r[..|r| - 1] == NatToString(n / 10);
    }
  }

  function Pow10(w: nat): (r: nat)
    ensures r >= 1
  {
    if w == 0 then 1 else 10 * Pow10(w - 1)
  }

  /** `n` written with exactly `w` decimal digits, zeros in front (`f"{n:0w}"` for `n < 10^w`). */
  function FixedDigits(n: nat, w: nat): (r: string)
    ensures |r| == w
  {
    if w == 0 then [] else FixedDigits(n / 10, w - 1) + [DigitChar(n % 10)]
  }

  /** A number with fewer than `w` digits gains a leading zero when written one digit wider. */
  lemma {:induction false} FixedDigitsWiden(n: nat, w: nat)
    requires n < Pow10(w)
    ensures FixedDigits(n, w + 1) == "0" + FixedDigits(n, w)
  {
    if w > 0 {
      FixedDigitsWiden(n / 10, w - 1);
    }
  }

  /** Python's `<` on strings: by code points, a proper prefix first. */
  predicate TextLess(a: string, b: string)
  {
    |b| > 0 && (|a| == 0 || a[0] < b[0] || (a[0] == b[0] && TextLess(a[1..], b[1..])))
  }

  /** Two texts with equal-length heads compare by their heads first, then by their tails. */
  lemma {:induction false} TextLessConcat(a: string, b: string, c: string, d: string)
    requires |a| == |b|
    ensures TextLess(a + c, b + d) <==> TextLess(a, b) || (a == b && TextLess(c, d))
    ensures a + c == b + d <==> a == b && c == d
    decreases |a|
  {
    if |a| == 0 {
      assert a + c == c && b + d == d;
    } else {
      assert (a + c)[1..] == a[1..] + c && (b + d)[1..] == b[1..] + d;
      TextLessConcat(a[1..], b[1..], c, d);
      if a + c == b + d {
        assert a == (a + c)[..|a|] && b == (b + d)[..|b|];
        assert c == (a + c)[|a|..] && d == (b + d)[|b|..];
      }
      if a[0] == b[0] && a[1..] == b[1..] {
        assert a == b;
      }
    }
  }

  /** Fixed-width digit strings compare as text exactly as their numbers compare. */
  lemma {:induction false} FixedDigitsOrder(n: nat, m: nat, w: nat)
    requires n < Pow10(w) && m < Pow10(w)
    ensures TextLess(FixedDigits(n, w), FixedDigits(m, w)) <==> n < m
    ensures FixedDigits(n, w) == FixedDigits(m, w) <==> n == m
  {
    if w > 0 {
      FixedDigitsOrder(n / 10, m / 10, w - 1);
      var x, y := DigitChar(n % 10), DigitChar(m % 10);
      TextLessConcat(FixedDigits(n / 10, w - 1), FixedDigits(m / 10, w - 1), [x], [y]);
      assert TextLess([x], [y]) <==> x < y by {
        assert [x][1..] == [] && [y][1..] == [];
      }
    }
  }
}

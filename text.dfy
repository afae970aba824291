/**
 * String primitives the JavaScript front end and the Python back end rely on:
 * lower-casing, substring search, trimming, splitting at the last separator,
 * removing a character, joining, and decimal rendering of indices.
 */
module Text {

  /** Lower-casing of one character, on the ASCII range. */
  function LowerChar(c: char): char {
    if 'A' <= c <= 'Z' then (c as int + 32) as char else c
  }

  /** `s.toLowerCase()` in JavaScript, `s.lower()` in Python, on the ASCII range. */
  function Lower(s: string): string {
    seq(|s|, i requires 0 <= i < |s| => LowerChar(s[i]))
  }

  /** Lower-casing twice is lower-casing once. */
  lemma LowerIdempotent(s: string)
    ensures Lower(Lower(s)) == Lower(s)
  {
  }

  /** `sub` occurs in `s` starting at index `i`. */
  predicate OccursAt(s: string, sub: string, i: int) {
    0 <= i && i + |sub| <= |s| && s[i..i + |sub|] == sub
  }

  /** `s.includes(sub)` in JavaScript, `sub in s` in Python: a scan from the left. */
  predicate Contains(s: string, sub: string)
    decreases |s|
  {
    if |sub| > |s| then false else s[..|sub|] == sub || Contains(s[1..], sub)
  }

  /** The scan finds `sub` exactly when it occurs at some index. */
  lemma {:induction false} ContainsOccurs(s: string, sub: string)
    ensures Contains(s, sub) <==> exists i | 0 <= i <= |s| - |sub| :: OccursAt(s, sub, i)
    decreases |s|
  {
    if |sub| <= |s| {
      if s[..|sub|] == sub {
        assert OccursAt(s, sub, 0);
      } else {
        ContainsOccurs(s[1..], sub);
        if Contains(s[1..], sub) {
          var i :| 0 <= i <= |s| - 1 - |sub| && OccursAt(s[1..], sub, i);
          TailSlice(s, i + 1, |sub|);
          assert OccursAt(s, sub, i + 1);
        } else {
          forall i | 0 <= i <= |s| - |sub| ensures !OccursAt(s, sub, i) {
            if i > 0 {
              TailSlice(s, i, |sub|);
              assert OccursAt(s, sub, i) ==> OccursAt(s[1..], sub, i - 1);
            }
          }
        }
      }
    }
  }

  /** A window of the tail is the window of `s` one place to the right. */
  lemma TailSlice(s: string, i: int, n: int)
    requires 1 <= i && 0 <= n && i + n <= |s|
    ensures s[1..][i - 1..i - 1 + n] == s[i..i + n]
  {
    var t, u := s[1..][i - 1..i - 1 + n], s[i..i + n];
    assert forall k | 0 <= k < n :: t[k] == u[k];
  }

  /** Every string contains itself, and so every string contains the empty string. */
  lemma ContainsSelf(s: string)
    ensures Contains(s, s) && Contains(s, "")
  {
    ContainsOccurs(s, s);
    ContainsOccurs(s, "");
    assert OccursAt(s, s, 0);
    assert OccursAt(s, "", 0);
  }

  /** A string contained in a part of `s` is contained in `s`. */
  lemma ContainsInSlice(s: string, lo: int, hi: int, sub: string)
    requires 0 <= lo <= hi <= |s|
    requires Contains(s[lo..hi], sub)
    ensures Contains(s, sub)
  {
    ContainsOccurs(s[lo..hi], sub);
    ContainsOccurs(s, sub);
    var i :| 0 <= i <= hi - lo - |sub| && OccursAt(s[lo..hi], sub, i);
    var t := s[lo..hi];
    assert forall m :: 0 <= m < |sub| ==> s[lo + i + m] == t[i + m] == sub[m];
    assert s[lo + i..lo + i + |sub|] == sub;
    assert OccursAt(s, sub, lo + i);
  }

  /** The last index at or before `k` where `sep` occurs in `s`, or -1 when there is none. */
  function LastOccurrenceFrom(s: string, sep: string, k: int): (r: int)
    requires -1 <= k <= |s|
    decreases k + 1
    ensures -1 <= r <= k
    ensures r >= 0 ==> OccursAt(s, sep, r)
    ensures forall j :: r < j <= k ==> !OccursAt(s, sep, j)
  {
    if k < 0 then -1
    else if OccursAt(s, sep, k) then k
    else LastOccurrenceFrom(s, sep, k - 1)
  }

  /**
   * Python's `s.rsplit(sep, 1)`: one piece (the whole string) when `sep` does
   * not occur, otherwise the text before and after its LAST occurrence.
   * Python refuses an empty separator.
   */
  function RSplitOnce(s: string, sep: string): (pieces: seq<string>)
    requires |sep| > 0
    ensures |pieces| == 1 || |pieces| == 2
    ensures |pieces| == 1 <==> !Contains(s, sep)
    ensures |pieces| == 1 ==> pieces[0] == s
    ensures |pieces| == 2 ==> pieces[0] + sep + pieces[1] == s
    ensures |pieces| == 2 ==> forall j :: |pieces[0]| < j ==> !OccursAt(s, sep, j)
  {
    var k := LastOccurrenceFrom(s, sep, |s|);
    ContainsOccurs(s, sep);
    if k < 0 then
      assert forall j :: 0 <= j <= |s| - |sep| ==> !OccursAt(s, sep, j);
      [s]
    else
      assert s == s[..k] + sep + s[k + |sep|..];
      [s[..k], s[k + |sep|..]]
  }

  /** Python's `s.replace(c, "")` for a one-character pattern: every `c` removed, the rest kept. */
  function RemoveChar(s: string, c: char): (r: string)
    ensures c !in r
    ensures forall x :: x != c ==> multiset(r)[x] == multiset(s)[x]
    ensures c !in s ==> r == s
  {
    if s == [] then []
    else
      assert s == [s[0]] + s[1..];
      if s[0] == c then RemoveChar(s[1..], c) else [s[0]] + RemoveChar(s[1..], c)
  }

  /** Removal works piece by piece: the kept characters stay in their order. */
  lemma {:induction false} RemoveCharAppend(a: string, b: string, c: char)
    ensures RemoveChar(a + b, c) == RemoveChar(a, c) + RemoveChar(b, c)
  {
    if a != [] {
      assert (a + b)[0] == a[0];
      assert (a + b)[1..] == a[1..] + b;
      RemoveCharAppend(a[1..], b, c);
      var rest := RemoveChar(a[1..], c);
      if a[0] != c {
        assert [a[0]] + (rest + RemoveChar(b, c)) == ([a[0]] + rest) + RemoveChar(b, c);
      }
    } else {
      assert a + b == b;
    }
  }

  /** Removing `c` from a text without `c` followed by one `c` gives the text back. */
  lemma {:induction false} RemoveTrailingChar(s: string, c: char)
    requires c !in s
    ensures RemoveChar(s + [c], c) == s
  {
    if s != [] {
      assert (s + [c])[1..] == s[1..] + [c];
      RemoveTrailingChar(s[1..], c);
    }
  }

  /** Which language's notion of white space a trim uses. */
  datatype Flavour = Js | Py

  /**
   * White space as JavaScript's `String.prototype.trim` sees it (WhiteSpace and
   * LineTerminator) and as Python's `str.strip()` sees it (`str.isspace`).
   */
  predicate IsSpace(f: Flavour, c: char) {
    || c == ' ' || '\t' <= c <= '\r'
    || c == '\U{00A0}' || c == '\U{1680}' || '\U{2000}' <= c <= '\U{200A}'
    || c == '\U{2028}' || c == '\U{2029}' || c == '\U{202F}' || c == '\U{205F}' || c == '\U{3000}'
    || (f == Js && c == '\U{FEFF}')
    || (f == Py && ('\U{001C}' <= c <= '\U{001F}' || c == '\U{0085}'))
  }

  /** The number of white-space characters at the start of `s`. */
  function LeadingSpaces(f: Flavour, s: string): (k: nat)
    ensures k <= |s|
    ensures forall j :: 0 <= j < k ==> IsSpace(f, s[j])
    ensures k < |s| ==> !IsSpace(f, s[k])
  {
    if s == [] || !IsSpace(f, s[0]) then 0 else 1 + LeadingSpaces(f, s[1..])
  }

  /** The number of white-space characters at the end of `s`. */
  function TrailingSpaces(f: Flavour, s: string): (k: nat)
    ensures k <= |s|
    ensures forall j :: |s| - k <= j < |s| ==> IsSpace(f, s[j])
    ensures k < |s| ==> !IsSpace(f, s[|s| - 1 - k])
  {
    if s == [] || !IsSpace(f, s[|s| - 1]) then 0 else 1 + TrailingSpaces(f, s[..|s| - 1])
  }

  /**
   * `s.trim()` in JavaScript (`Js`), `s.strip()` in Python (`Py`): the
   * longest slice of `s` with white space removed from both ends.
   */
  function Trim(f: Flavour, s: string): (r: string)
    ensures |r| <= |s|
    ensures r == [] || (!IsSpace(f, r[0]) && !IsSpace(f, r[|r| - 1]))
    ensures r == [] <==> forall j :: 0 <= j < |s| ==> IsSpace(f, s[j])
  {
    var a := LeadingSpaces(f, s);
    var t := s[a..];
    var b := TrailingSpaces(f, t);
    if a == |s| then []
    else
      assert b < |t|;
      t[..|t| - b]
  }

  /**
   * The trimmed text is the slice of `s` between a white-space prefix and a
   * white-space suffix; with the ends of the result not white space, that
   * slice is the longest such one.
   */
  lemma TrimSlice(f: Flavour, s: string)
    ensures exists a, b ::
              && 0 <= a <= b <= |s| && Trim(f, s) == s[a..b]
              && (forall j :: 0 <= j < a ==> IsSpace(f, s[j]))
              && (forall j :: b <= j < |s| ==> IsSpace(f, s[j]))
  {
    var a := LeadingSpaces(f, s);
    var k := TrailingSpaces(f, s[a..]);
    var b := if a == |s| then a else |s| - k;
    if a == |s| {
      assert Trim(f, s) == s[a..b];
    } else {
      TrailingShift(f, s, a, k);
      SliceOfTail(s, a, |s| - a - k);
    }
    assert forall j :: 0 <= j < a ==> IsSpace(f, s[j]);
    assert forall j :: b <= j < |s| ==> IsSpace(f, s[j]);
  }

  /** A prefix of the tail `s[a..]` is a slice of `s`. */
  lemma SliceOfTail<T>(s: seq<T>, a: nat, n: nat)
    requires a + n <= |s|
    ensures s[a..][..n] == s[a..a + n]
  {
  }

  /** White space closing the tail `s[a..]` closes `s` itself. */
  lemma TrailingShift(f: Flavour, s: string, a: nat, k: nat)
    requires a <= |s| && k <= |s| - a
    requires forall j :: |s[a..]| - k <= j < |s[a..]| ==> IsSpace(f, s[a..][j])
    ensures forall j :: |s| - k <= j < |s| ==> IsSpace(f, s[j])
  {
    var t := s[a..];
    forall j | |s| - k <= j < |s|
      ensures IsSpace(f, s[j])
    {
      assert s[j] == t[j - a];
    }
  }

  /** Trimming a string whose ends are not white space leaves it as it is; so trimming twice is trimming once. */
  lemma TrimClean(f: Flavour, s: string)
    requires s == [] || (!IsSpace(f, s[0]) && !IsSpace(f, s[|s| - 1]))
    ensures Trim(f, s) == s
  {
  }

  lemma TrimIdempotent(f: Flavour, s: string)
    ensures Trim(f, Trim(f, s)) == Trim(f, s)
  {
    TrimClean(f, Trim(f, s));
  }

  /** Python's `sep.join(xs)`. */
  function Join(sep: string, xs: seq<string>): (r: string)
    ensures xs == [] ==> r == []
    ensures |xs| == 1 ==> r == xs[0]
  {
    if xs == [] then []
    else if |xs| == 1 then xs[0]
    else xs[0] + sep + Join(sep, xs[1..])
  }

  /** Every piece of a join is a slice of the joined text, so what a piece contains the join contains. */
  lemma {:induction false} JoinContainsPiece(sep: string, xs: seq<string>, k: int, sub: string)
    requires 0 <= k < |xs|
    requires Contains(xs[k], sub)
    ensures Contains(Join(sep, xs), sub)
  {
    if |xs| == 1 {
    } else {
      var rest := Join(sep, xs[1..]);
      var whole := xs[0] + sep + rest;
      if k == 0 {
        assert whole[..|xs[0]|] == xs[0];
        ContainsInSlice(whole, 0, |xs[0]|, sub);
      } else {
        JoinContainsPiece(sep, xs[1..], k - 1, sub);
        assert whole[|xs[0]| + |sep|..|whole|] == rest;
        ContainsInSlice(whole, |xs[0]| + |sep|, |whole|, sub);
      }
    }
  }

  /** One decimal digit. */
  function Digit(d: nat): char
    requires d < 10
  {
    ('0' as int + d) as char
  }

  /** Decimal rendering of a natural number, as JavaScript's template strings print an array index. */
  function NatToString(n: nat): (r: string)
    ensures |r| >= 1
    ensures n >= 10 <==> |r| >= 2
    ensures forall i :: 0 <= i < |r| ==> '0' <= r[i] <= '9'
  {
    if n < 10 then [Digit(n)] else NatToString(n / 10) + [Digit(n % 10)]
  }

  /** A number of two or more digits is its leading digits followed by its last digit. */
  lemma NatToStringSplit(n: nat)
    requires n >= 10
    ensures var r := NatToString(n);
      r == NatToString(n / 10) + [Digit(n % 10)]
  {
  }

  /** Quotient and remainder by 10 determine the number. */
  lemma TenDetermines(a: nat, b: nat)
    requires a / 10 == b / 10 && a % 10 == b % 10
    ensures a == b
  {
    assert a == 10 * (a / 10) + a % 10;
    assert b == 10 * (b / 10) + b % 10;
  }

  /** Distinct numbers have distinct decimal renderings. */
  lemma {:induction false} NatToStringInjective(a: nat, b: nat)
    requires NatToString(a) == NatToString(b)
    ensures a == b
  {
    if a < 10 || b < 10 {
      SingleDigitInjective(a, b);
    } else {
      NatToStringSplit(a);
      NatToStringSplit(b);
      SnocInjective(NatToString(a / 10), NatToString(b / 10), Digit(a % 10), Digit(b % 10));
      NatToStringInjective(a / 10, b / 10);
      TenDetermines(a, b);
    }
  }

  /** Appending one element is injective. */
  lemma SnocInjective<T>(x: seq<T>, y: seq<T>, c: T, d: T)
    requires x + [c] == y + [d]
    ensures x == y && c == d
  {
    assert x == (x + [c])[..|x|];
    assert y == (y + [d])[..|y|];
  }

  /** A one-digit rendering is only ever equal to the same one-digit rendering. */
  lemma SingleDigitInjective(a: nat, b: nat)
    requires NatToString(a) == NatToString(b) && (a < 10 || b < 10)
    ensures a == b
  {
    var ra, rb := NatToString(a), NatToString(b);
    assert |ra| == 1 && |rb| == 1;
    assert ra[0] == rb[0];
  }
}

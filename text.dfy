/** The string operations of Python's `str` that the pipeline relies on:
    decimal digits, whitespace stripping, case mapping, search, split, join,
    replace and the code-point order that `sorted()` uses. Only ASCII letters,
    digits and whitespace are given their Python meaning. */
module Text {
  import opened Wrappers

  // ---------------------------------------------------------------------
  // Decimal digits and numerals

  predicate IsDigit(c: char) { '0' <= c <= '9' }

  predicate AllDigits(s: string) { forall i :: 0 <= i < |s| ==> IsDigit(s[i]) }

  function DigitValue(c: char): nat
    requires IsDigit(c)
  {
    (c as int) - ('0' as int)
  }

  function DigitChar(d: nat): (c: char)
    requires d < 10
    ensures IsDigit(c) && DigitValue(c) == d
  {
    ('0' as int + d) as char
  }

  /** The number a run of decimal digits denotes, most significant first
      (Python `int()` on a digit string). */
  function DigitsValue(s: string): nat
    requires AllDigits(s)
  {
    if s == [] then 0 else DigitsValue(s[..|s| - 1]) * 10 + DigitValue(s[|s| - 1])
  }

  /** Python `str(n)` for a natural number: shortest decimal numeral. */
  function NatToString(n: nat): (r: string)
    ensures |r| > 0 && AllDigits(r)
    ensures n > 0 ==> r[0] != '0'
  {
    if n < 10 then [DigitChar(n)] else NatToString(n / 10) + [DigitChar(n % 10)]
  }

  /** Python `str(i)` for any integer. */
  function IntToString(i: int): string
  {
    if i < 0 then "-" + NatToString(-i) else NatToString(i)
  }

  /** A one-digit number is written as its digit. */
  lemma SingleDigit(n: nat)
    requires n < 10
    ensures NatToString(n) == [DigitChar(n)]
  {
  }

  lemma {:induction false} NatToStringRoundTrip(n: nat)
    ensures DigitsValue(NatToString(n)) == n
  {
    if n >= 10 {
      var prefix := NatToString(n / 10);
      NatToStringRoundTrip(n / 10);
      assert (prefix + [DigitChar(n % 10)])[..|prefix|] == prefix;
    }
  }

  lemma {:induction false} LeadingZero(s: string)
    requires AllDigits(s)
    ensures AllDigits("0" + s) && DigitsValue("0" + s) == DigitsValue(s)
  {
    if s != [] {
      LeadingZero(s[..|s| - 1]);
      assert ("0" + s)[..|"0" + s| - 1] == "0" + s[..|s| - 1];
    }
  }

  /** Python's `{:0wd}` padding: zeros on the left up to `width` characters. */
  function ZeroPad(s: string, width: nat): (r: string)
    ensures |r| == if |s| >= width then |s| else width
    ensures r[|r| - |s|..] == s
    ensures forall i :: 0 <= i < |r| - |s| ==> r[i] == '0'
    decreases width - |s|
  {
    if |s| >= width then s else ZeroPad("0" + s, width)
  }

  lemma {:induction false} ZeroPadValue(s: string, width: nat)
    requires AllDigits(s)
    ensures AllDigits(ZeroPad(s, width)) && DigitsValue(ZeroPad(s, width)) == DigitsValue(s)
    decreases width - |s|
  {
    if |s| < width {
      LeadingZero(s);
      ZeroPadValue("0" + s, width);
    }
  }

  // ---------------------------------------------------------------------
  // Whitespace and case

  /** The ASCII characters Python's `str.strip()` and regex `\s` treat as
      white space: tab, newline, vertical tab, form feed, carriage return,
      the four information separators and the space. */
  predicate IsSpace(c: char)
  {
    c == ' ' || 9 <= c as int <= 13 || 28 <= c as int <= 31
  }

  function StripLeft(s: string): (r: string)
    ensures |r| <= |s| && r == s[|s| - |r|..]
    ensures forall k :: 0 <= k < |s| - |r| ==> IsSpace(s[k])
    ensures r == [] || !IsSpace(r[0])
  {
    if s != [] && IsSpace(s[0]) then StripLeft(s[1..]) else s
  }

  function StripRight(s: string): (r: string)
    ensures |r| <= |s| && r == s[..|r|]
    ensures forall k :: |r| <= k < |s| ==> IsSpace(s[k])
    ensures r == [] || !IsSpace(r[|r| - 1])
  {
    if s != [] && IsSpace(s[|s| - 1]) then StripRight(s[..|s| - 1]) else s
  }

  /** Python `str.strip()`: the slice of `s` left after removing white space
      at both ends. */
  function Strip(s: string): (r: string)
    ensures exists i, j :: 0 <= i <= j <= |s| && r == s[i..j]
                           && (forall k :: 0 <= k < i ==> IsSpace(s[k]))
                           && (forall k :: j <= k < |s| ==> IsSpace(s[k]))
    ensures r == [] || (!IsSpace(r[0]) && !IsSpace(r[|r| - 1]))
  {
    var l := StripLeft(s);
    var r := StripRight(l);
    var i := |s| - |l|;
    assert r == s[i..i + |r|];
    r
  }

  predicate IsUpper(c: char) { 'A' <= c <= 'Z' }
  predicate IsLower(c: char) { 'a' <= c <= 'z' }
  predicate IsLetter(c: char) { IsUpper(c) || IsLower(c) }

  function LowerChar(c: char): char
  {
    if IsUpper(c) then (c as int + 32) as char else c
  }

  function UpperChar(c: char): char
  {
    if IsLower(c) then (c as int - 32) as char else c
  }

  /** Python `str.lower()`. */
  function Lower(s: string): string
  {
    seq(|s|, i requires 0 <= i < |s| => LowerChar(s[i]))
  }

  /** Python `str.title()`: a letter that follows a letter is lower-cased,
      any other letter is upper-cased. */
  function Title(s: string): string
  {
    seq(|s|, i requires 0 <= i < |s| =>
      if i > 0 && IsLetter(s[i - 1]) then LowerChar(s[i]) else UpperChar(s[i]))
  }

  // ---------------------------------------------------------------------
  // Search

  predicate OccursAt(s: string, pat: string, i: int)
  {
    0 <= i && i + |pat| <= |s| && s[i..i + |pat|] == pat
  }

  /** Python `s.find(pat, from)`: the first index at or after `from` where
      `pat` occurs. */
  function FindFrom(s: string, pat: string, from: nat): (r: Option<nat>)
    ensures r.Some? ==> from <= r.value && OccursAt(s, pat, r.value)
    ensures r.Some? ==> forall k :: from <= k < r.value ==> !OccursAt(s, pat, k)
    ensures r.None? ==> forall k :: from <= k ==> !OccursAt(s, pat, k)
    decreases |s| - from
  {
    if from + |pat| > |s| then None
    else if s[from..from + |pat|] == pat then Some(from)
    else FindFrom(s, pat, from + 1)
  }

  /** An occurrence with none before it, from `from` on, is what the
      search finds. */
  lemma FindFromAt(s: string, pat: string, from: nat, j: nat)
    requires from <= j && OccursAt(s, pat, j)
    requires forall k :: from <= k < j ==> !OccursAt(s, pat, k)
    ensures FindFrom(s, pat, from) == Some(j)
  {
  }

  /** Python `sub in s`. */
  predicate Contains(s: string, sub: string)
  {
    FindFrom(s, sub, 0).Some?
  }

  /** Python `s.find(c)` for one character. */
  function FindChar(s: string, c: char): (r: Option<nat>)
    ensures r.Some? ==> r.value < |s| && s[r.value] == c && forall k :: 0 <= k < r.value ==> s[k] != c
    ensures r.None? ==> forall k :: 0 <= k < |s| ==> s[k] != c
  {
    if s == [] then None
    else if s[0] == c then Some(0)
    else match FindChar(s[1..], c)
         case None => None
         case Some(k) => Some(k + 1)
  }

  /** Python `s.rfind(c)` for one character. */
  function RFindChar(s: string, c: char): (r: Option<nat>)
    ensures r.Some? ==> r.value < |s| && s[r.value] == c && forall k :: r.value < k < |s| ==> s[k] != c
    ensures r.None? ==> forall k :: 0 <= k < |s| ==> s[k] != c
  {
    if s == [] then None
    else if s[|s| - 1] == c then Some(|s| - 1)
    else RFindChar(s[..|s| - 1], c)
  }

  /** Python `s[:n]`. */
  function Take(s: string, n: nat): (r: string)
    ensures |r| <= n && |r| <= |s| && r == s[..|r|]
    ensures |s| <= n ==> r == s
  {
    if |s| <= n then s else s[..n]
  }

  // ---------------------------------------------------------------------
  // Split, join and replace

  /** Python `sep.join(parts)`. */
  function Join(parts: seq<string>, sep: string): string
  {
    if |parts| == 0 then ""
    else if |parts| == 1 then parts[0]
    else parts[0] + sep + Join(parts[1..], sep)
  }

  /** Python `s.split(sep)` for a non-empty separator: the pieces between
      the leftmost non-overlapping occurrences of `sep`. */
  function Split(s: string, sep: string): (r: seq<string>)
    requires |sep| > 0
    ensures |r| > 0
    ensures forall i, k :: 0 <= i < |r| && 0 <= k ==> !OccursAt(r[i], sep, k)
    decreases |s|
  {
    match FindFrom(s, sep, 0)
    case None => [s]
    case Some(i) =>
      var head := s[..i];
      assert forall k :: 0 <= k ==> !OccursAt(head, sep, k) by {
        forall k | 0 <= k && OccursAt(head, sep, k) ensures false {
          assert s[k..k + |sep|] == head[k..k + |sep|];
          assert OccursAt(s, sep, k) && k < i;
        }
      }
      [head] + Split(s[i + |sep|..], sep)
  }

  /** Concatenation regroups. */
  lemma AppendAssoc(a: string, b: string, c: string)
    ensures (a + b) + c == a + (b + c)
  {
  }

  /** Python `s.replace(pat, rep)` for a non-empty pattern. */
  function Replace(s: string, pat: string, rep: string): string
    requires |pat| > 0
    decreases |s|
  {
    match FindFrom(s, pat, 0)
    case None => s
    case Some(i) => s[..i] + rep + Replace(s[i + |pat|..], pat, rep)
  }

  /** `s.replace(pat, rep)` is `rep.join(s.split(pat))`: every occurrence
      of the pattern, scanning left to right, is replaced. */
  lemma {:induction false} ReplaceIsJoinOfSplit(s: string, pat: string, rep: string)
    requires |pat| > 0
    ensures Replace(s, pat, rep) == Join(Split(s, pat), rep)
    decreases |s|
  {
    match FindFrom(s, pat, 0)
    case None =>
    case Some(i) =>
      var rest := s[i + |pat|..];
      ReplaceIsJoinOfSplit(rest, pat, rep);
      assert Split(s, pat) == [s[..i]] + Split(rest, pat);
  }

  /** Joining the pieces of a split with the separator gives back the
      string. */
  lemma {:induction false} SplitJoinRoundTrip(s: string, sep: string)
    requires |sep| > 0
    ensures Join(Split(s, sep), sep) == s
    decreases |s|
  {
    match FindFrom(s, sep, 0)
    case None =>
    case Some(i) =>
      var rest := s[i + |sep|..];
      SplitJoinRoundTrip(rest, sep);
      assert Split(s, sep) == [s[..i]] + Split(rest, sep);
      assert s == s[..i] + sep + rest;
  }

  /** Splitting at a separator whose first character no part contains
      undoes the join. */
  lemma {:induction false} SplitJoin(parts: seq<string>, sep: string)
    requires parts != [] && |sep| > 0
    requires forall i, k :: 0 <= i < |parts| && 0 <= k < |parts[i]| ==> parts[i][k] != sep[0]
    ensures Split(Join(parts, sep), sep) == parts
  {
    var s := Join(parts, sep);
    var p := parts[0];
    if |parts| == 1 {
      assert s == p;
      forall k | 0 <= k ensures !OccursAt(s, sep, k) {
        if k + |sep| <= |s| {
          assert s[k..k + |sep|][0] == s[k];
        }
      }
    } else {
      var rest := Join(parts[1..], sep);
      assert s == p + sep + rest;
      assert OccursAt(s, sep, |p|) by { assert s[|p|..|p| + |sep|] == sep; }
      forall k | 0 <= k < |p| ensures !OccursAt(s, sep, k) {
        assert s[k] == p[k];
        if k + |sep| <= |s| {
          assert s[k..k + |sep|][0] == s[k];
        }
      }
      assert FindFrom(s, sep, 0) == Some(|p|);
      assert s[..|p|] == p;
      assert s[|p| + |sep|..] == rest;
      SplitJoin(parts[1..], sep);
    }
  }

  /** `s` with every `c` turned into `d`. */
  function SwapChar(s: string, c: char, d: char): (r: string)
    ensures |r| == |s|
  {
    seq(|s|, i requires 0 <= i < |s| => if s[i] == c then d else s[i])
  }

  /** Replacing a one-character pattern by one character swaps that
      character everywhere. */
  lemma {:induction false} ReplaceOneChar(s: string, c: char, d: char)
    ensures Replace(s, [c], [d]) == SwapChar(s, c, d)
    decreases |s|
  {
    match FindFrom(s, [c], 0)
    case None =>
      forall k | 0 <= k < |s| ensures s[k] != c {
        assert !OccursAt(s, [c], k);
        assert s[k..k + 1] == [s[k]];
      }
    case Some(i) =>
      var rest := s[i + 1..];
      ReplaceOneChar(rest, c, d);
      forall k | 0 <= k < i ensures s[k] != c {
        assert !OccursAt(s, [c], k);
        assert s[k..k + 1] == [s[k]];
      }
      assert s[i..i + 1] == [c];
      assert s[..i] + [d] + SwapChar(rest, c, d) == SwapChar(s, c, d);
  }

  /** `key.replace("_", " ").title()`: how a field name is shown. */
  function FieldLabel(key: string): string
  {
    Title(Replace(key, "_", " "))
  }

  /** A label turns underscores into spaces and capitalises each word. */
  lemma LabelOfKey(key: string)
    ensures FieldLabel(key) == Title(SwapChar(key, '_', ' '))
  {
    ReplaceOneChar(key, '_', ' ');
  }

  /** A pattern whose first character is not in `s` does not occur in it. */
  lemma AbsentFirstChar(s: string, pat: string)
    requires |pat| > 0 && forall k :: 0 <= k < |s| ==> s[k] != pat[0]
    ensures !Contains(s, pat)
  {
    forall k | 0 <= k && k + |pat| <= |s| ensures !OccursAt(s, pat, k) {
      assert s[k..k + |pat|][0] == s[k];
    }
  }

  /** A pattern that does not occur is left alone. */
  lemma ReplaceAbsent(s: string, pat: string, rep: string)
    requires |pat| > 0 && !Contains(s, pat)
    ensures Replace(s, pat, rep) == s
  {
  }

  // ---------------------------------------------------------------------
  // The order of `sorted()` on strings: lexicographic by code point

  predicate LexLess(a: string, b: string)
    decreases |a|
  {
    |b| > 0 && (|a| == 0 || a[0] < b[0] || (a[0] == b[0] && LexLess(a[1..], b[1..])))
  }

  lemma {:induction false} LexIrreflexive(a: string)
    ensures !LexLess(a, a)
    decreases |a|
  {
    if |a| > 0 { LexIrreflexive(a[1..]); }
  }

  lemma {:induction false} LexTransitive(a: string, b: string, c: string)
    requires LexLess(a, b) && LexLess(b, c)
    ensures LexLess(a, c)
    decreases |a|
  {
    if |a| > 0 && a[0] == b[0] && b[0] == c[0] {
      LexTransitive(a[1..], b[1..], c[1..]);
    }
  }

  lemma {:induction false} LexTotal(a: string, b: string)
    requires a != b
    ensures LexLess(a, b) || LexLess(b, a)
    decreases |a|
  {
    if |a| > 0 && |b| > 0 && a[0] == b[0] {
      assert a == [a[0]] + a[1..] && b == [b[0]] + b[1..];
      LexTotal(a[1..], b[1..]);
    }
  }

  lemma LexAsymmetric(a: string, b: string)
    requires LexLess(a, b)
    ensures !LexLess(b, a)
  {
    if LexLess(b, a) {
      LexTransitive(a, b, a);
      LexIrreflexive(a);
    }
  }

  /** Strictly increasing in `sorted()` order (hence no repeats). */
  predicate StrictlySorted(s: seq<string>)
  {
    forall i, j :: 0 <= i < j < |s| ==> LexLess(s[i], s[j])
  }

  predicate IsLeast(m: string, s: set<string>)
  {
    m in s && forall x :: x in s && x != m ==> LexLess(m, x)
  }

  lemma {:induction false} LeastExists(s: set<string>)
    requires s != {}
    ensures exists m :: IsLeast(m, s)
    decreases |s|
  {
    var z :| z in s;
    if s != {z} {
      var rest := s - {z};
      LeastExists(rest);
      var m :| IsLeast(m, rest);
      if LexLess(z, m) {
        forall x | x in s && x != z ensures LexLess(z, x) {
          if x != m { LexTransitive(z, m, x); }
        }
        assert IsLeast(z, s);
      } else {
        LexTotal(z, m);
        assert IsLeast(m, s);
      }
    } else {
      assert IsLeast(z, s);
    }
  }

  /** The smallest string of a non-empty set. */
  function Least(s: set<string>): (m: string)
    requires s != {}
    ensures IsLeast(m, s)
  {
    LeastExists(s);
    assert forall m, m' :: IsLeast(m, s) && IsLeast(m', s) ==> m == m' by {
      forall m, m' | IsLeast(m, s) && IsLeast(m', s) ensures m == m' {
        if m != m' { LexAsymmetric(m, m'); }
      }
    }
    var m :| IsLeast(m, s);
    m
  }

  /** Python `sorted(keys)`: the keys in increasing order. */
  function SortedKeys(s: set<string>): (r: seq<string>)
    ensures StrictlySorted(r) && |r| == |s|
    ensures forall k :: k in r <==> k in s
    decreases |s|
  {
    if s == {} then []
    else
      var m := Least(s);
      var rest := SortedKeys(s - {m});
      assert |s - {m}| == |s| - 1;
      assert forall j :: 0 <= j < |rest| ==> rest[j] in s - {m} by {
        forall j | 0 <= j < |rest| ensures rest[j] in s - {m} { assert rest[j] in rest; }
      }
      [m] + rest
  }

  lemma HeadIn(s: seq<string>)
    requires s != []
    ensures s[0] in s
  {
  }

  /** `sorted()` has exactly one possible answer: two strictly increasing
      sequences with the same elements are equal. */
  lemma {:induction false} SortedUnique(a: seq<string>, b: seq<string>)
    requires StrictlySorted(a) && StrictlySorted(b)
    requires forall k :: k in a <==> k in b
    ensures a == b
    decreases |a|
  {
    if a == [] && b == [] {
    } else if a == [] {
      HeadIn(b);
      assert false;
    } else if b == [] {
      HeadIn(a);
      assert false;
    } else if a[0] != b[0] {
      assert b[0] in a && a[0] in b;
      var i :| 0 <= i < |a| && a[i] == b[0];
      var j :| 0 <= j < |b| && b[j] == a[0];
      assert LexLess(a[0], b[0]) && LexLess(b[0], a[0]);
      LexAsymmetric(a[0], b[0]);
      assert false;
    } else {
      forall k ensures k in a[1..] <==> k in b[1..] {
        if k in a[1..] {
          var i :| 1 <= i < |a| && a[i] == k;
          LexAsymmetric(a[0], k);
          assert k in b && k != b[0];
        }
        if k in b[1..] {
          var j :| 1 <= j < |b| && b[j] == k;
          LexAsymmetric(b[0], k);
          assert k in a && k != a[0];
        }
      }
      SortedUnique(a[1..], b[1..]);
      assert a == [a[0]] + a[1..] && b == [b[0]] + b[1..];
    }
  }
}

/**
 * The few Python `str` operations the backend relies on, with Python's
 * semantics: `isspace`, `strip`, `lower` (ASCII letters), `in`, `startswith`,
 * `count`, `replace`, `split`, `join`, `rfind`, `str(int)` and `int(str)`.
 */
module PyStr {
  import opened Wrappers

  /** `c.isspace()`: the Unicode White_Space characters Python treats as whitespace. */
  predicate IsSpace(c: char)
  {
    c == ' ' || c == '\t' || c == '\n' || c == '\r' || c == '\U{000B}' || c == '\U{000C}'
    || ('\U{001C}' <= c <= '\U{001F}') || c == '\U{0085}' || c == '\U{00A0}' || c == '\U{1680}'
    || ('\U{2000}' <= c <= '\U{200A}') || c == '\U{2028}' || c == '\U{2029}' || c == '\U{202F}'
    || c == '\U{205F}' || c == '\U{3000}'
  }

  /** `not s.strip()`: the string is empty or all whitespace. */
  predicate IsBlank(s: string)
  {
    forall i :: 0 <= i < |s| ==> IsSpace(s[i])
  }

  /** The first index at or after `i` that does not hold whitespace (or `|s|`). */
  function SkipSpaces(s: string, i: nat): (j: nat)
    requires i <= |s|
    ensures i <= j <= |s|
    ensures j < |s| ==> !IsSpace(s[j])
    ensures forall k :: i <= k < j ==> IsSpace(s[k])
    decreases |s| - i
  {
    if i < |s| && IsSpace(s[i]) then SkipSpaces(s, i + 1) else i
  }

  /** The end of `s[lo..hi]` once trailing whitespace is dropped. */
  function TrimEnd(s: string, lo: nat, hi: nat): (j: nat)
    requires lo <= hi <= |s|
    ensures lo <= j <= hi
    ensures j > lo ==> !IsSpace(s[j - 1])
    ensures forall k :: j <= k < hi ==> IsSpace(s[k])
    decreases hi - lo
  {
    if hi > lo && IsSpace(s[hi - 1]) then TrimEnd(s, lo, hi - 1) else hi
  }

  /** `s.lstrip()`. */
  function LStrip(s: string): (r: string)
    ensures |r| <= |s|
    ensures r != [] ==> !IsSpace(r[0])
    ensures r == [] <==> IsBlank(s)
  {
    s[SkipSpaces(s, 0)..]
  }

  /** Where `s.strip()` starts inside `s`: the number of leading whitespace characters. */
  function StripStart(s: string): (n: nat)
    ensures n <= |s|
  {
    SkipSpaces(s, 0)
  }

  /** Where `s.strip()` ends inside `s`. */
  function StripEnd(s: string): (n: nat)
    ensures StripStart(s) <= n <= |s|
  {
    TrimEnd(s, StripStart(s), |s|)
  }

  /**
   * `s.strip()`: the slice of `s` between its leading and its trailing
   * whitespace; it has no whitespace at either end, and it is empty exactly
   * when `s` is blank.
   */
  function Strip(s: string): (r: string)
    ensures |r| <= |s|
    ensures r == s[StripStart(s)..StripEnd(s)]
    ensures r == [] <==> IsBlank(s)
    ensures r != [] ==> !IsSpace(r[0]) && !IsSpace(r[|r| - 1])
  {
    var a := StripStart(s);
    var b := StripEnd(s);
    assert b == a ==> IsBlank(s) by {
      if b == a {
        forall k | 0 <= k < |s| ensures IsSpace(s[k]) {
          if k >= a {
            assert a <= k < |s|;
          }
        }
      }
    }
    s[a..b]
  }

  /** A string with no whitespace at either end is its own `strip()`. */
  lemma StripUnpadded(s: string)
    requires s != [] && !IsSpace(s[0]) && !IsSpace(s[|s| - 1])
    ensures Strip(s) == s
  {
    assert LStrip(s) == s;
  }

  /** `c.lower()` for ASCII letters; every other character is left as it is. */
  function LowerChar(c: char): (r: char)
    ensures 'A' <= c <= 'Z' ==> 'a' <= r <= 'z'
    ensures !('A' <= c <= 'Z') ==> r == c
  {
    if 'A' <= c <= 'Z' then (c as int - 'A' as int + 'a' as int) as char else c
  }

  function Lower(s: string): (r: string)
    ensures |r| == |s|
    ensures forall i :: 0 <= i < |s| ==> r[i] == LowerChar(s[i])
  {
    if s == [] then [] else [LowerChar(s[0])] + Lower(s[1..])
  }

  /** Lower-casing twice is lower-casing once. */
  lemma LowerTwice(s: string)
    ensures Lower(Lower(s)) == Lower(s)
  {
    hide Lower;
    forall i | 0 <= i < |s| ensures Lower(Lower(s))[i] == Lower(s)[i] {
    }
  }

  /** `sub` occurs in `s` at index `i`. */
  predicate HasAt(s: string, i: int, sub: string)
  {
    0 <= i && i + |sub| <= |s| && s[i..i + |sub|] == sub
  }

  /** `s.startswith(p)`. */
  predicate StartsWith(s: string, p: string)
  {
    |p| <= |s| && s[..|p|] == p
  }

  /** `s.endswith(p)`. */
  predicate EndsWith(s: string, p: string)
  {
    |p| <= |s| && s[|s| - |p|..] == p
  }

  /** `sub in s`. */
  ghost predicate Contains(s: string, sub: string)
  {
    exists i :: HasAt(s, i, sub)
  }

  /** Recursive search deciding `sub in s`, used wherever the answer must be computed. */
  function ContainsFrom(s: string, sub: string, i: nat): (r: bool)
    requires i <= |s|
    ensures r <==> exists j :: i <= j && HasAt(s, j, sub)
    decreases |s| - i
  {
    if HasAt(s, i, sub) then true
    else if i == |s| then false
    else ContainsFrom(s, sub, i + 1)
  }

  function Has(s: string, sub: string): (r: bool)
    ensures r <==> Contains(s, sub)
  {
    ContainsFrom(s, sub, 0)
  }

  /** `s.count(sub)` for a non-empty `sub`: non-overlapping occurrences scanned from the left. */
  function Count(s: string, sub: string): (r: nat)
    requires sub != []
    ensures r > 0 ==> Contains(s, sub)
    ensures r <= |s|
    decreases |s|
  {
    if |s| < |sub| then 0
    else if StartsWith(s, sub) then
      assert HasAt(s, 0, sub);
      1 + Count(s[|sub|..], sub)
    else
      var r := Count(s[1..], sub);
      if r > 0 then
        var j :| HasAt(s[1..], j, sub);
        assert s[1..][j..j + |sub|] == s[j + 1..j + 1 + |sub|];
        assert HasAt(s, j + 1, sub);
        r
      else r
  }

  /** `s.replace(pat, rep)` for a non-empty `pat`: every non-overlapping occurrence, left to right. */
  function Replace(s: string, pat: string, rep: string): (r: string)
    requires pat != []
    ensures !Contains(s, pat) ==> r == s
    decreases |s|
  {
    if |s| < |pat| then s
    else if StartsWith(s, pat) then
      assert HasAt(s, 0, pat);
      rep + Replace(s[|pat|..], pat, rep)
    else
      assert !Contains(s, pat) ==> !Contains(s[1..], pat) by {
        if Contains(s[1..], pat) {
          var j :| HasAt(s[1..], j, pat);
          assert s[1..][j..j + |pat|] == s[j + 1..j + 1 + |pat|];
          assert HasAt(s, j + 1, pat);
        }
      }
      [s[0]] + Replace(s[1..], pat, rep)
  }

  /** One step of `Replace`. */
  lemma ReplaceStep(s: string, pat: string, rep: string)
    requires pat != []
    ensures |s| < |pat| ==> Replace(s, pat, rep) == s
    ensures |s| >= |pat| && StartsWith(s, pat) ==> Replace(s, pat, rep) == rep + Replace(s[|pat|..], pat, rep)
    ensures |s| >= |pat| && !StartsWith(s, pat) ==> Replace(s, pat, rep) == [s[0]] + Replace(s[1..], pat, rep)
  {
  }

  /** Number of occurrences of the character `c` in `s`. */
  function CountChar(s: string, c: char): (r: nat)
    ensures r <= |s|
  {
    if s == [] then 0 else (if s[0] == c then 1 else 0) + CountChar(s[1..], c)
  }

  /** For a one-character pattern, `s.count` counts that character. */
  lemma {:induction false} CountOneChar(s: string, c: char)
    ensures Count(s, [c]) == CountChar(s, c)
  {
    if s != [] {
      CountOneChar(s[1..], c);
      assert StartsWith(s, [c]) <==> s[0] == c;
      assert s[|[c]|..] == s[1..];
    }
  }

  /** A subset is no larger than its superset. */
  lemma {:induction false} SubsetCard<T>(a: set<T>, b: set<T>)
    requires a <= b
    ensures |a| <= |b|
    decreases |a|
  {
    if a != {} {
      var x :| x in a;
      SubsetCard(a - {x}, b - {x});
    }
  }

  /** `sep.join(parts)`. */
  function Join(parts: seq<string>, sep: string): (r: string)
  {
    if parts == [] then []
    else if |parts| == 1 then parts[0]
    else parts[0] + sep + Join(parts[1..], sep)
  }

  /** `s.split(c)` for a one-character separator. */
  function Split(s: string, c: char): (r: seq<string>)
    ensures |r| == CountChar(s, c) + 1
    ensures Join(r, [c]) == s
    ensures forall k, i :: 0 <= k < |r| && 0 <= i < |r[k]| ==> r[k][i] != c
  {
    if s == [] then [""]
    else
      var rest := Split(s[1..], c);
      if s[0] == c then
        assert Join([""] + rest, [c]) == [c] + Join(rest, [c]);
        [""] + rest
      else
        var r := [[s[0]] + rest[0]] + rest[1..];
        assert Join(r, [c]) == s by {
          if |rest| == 1 {
          } else {
            assert r[1..] == rest[1..];
          }
        }
        r
  }

  /** Splitting `a + [c] + b` where `a` holds no `c`. */
  lemma {:induction false} SplitAtFirst(a: string, c: char, b: string)
    requires forall i :: 0 <= i < |a| ==> a[i] != c
    ensures Split(a + [c] + b, c) == [a] + Split(b, c)
    decreases |a|
  {
    if a == [] {
      assert a + [c] + b == [c] + b;
      assert (a + [c] + b)[1..] == b;
    } else {
      assert (a + [c] + b)[1..] == a[1..] + [c] + b;
      SplitAtFirst(a[1..], c, b);
      assert [a[0]] + a[1..] == a;
    }
  }

  /** `split` distributes over a separator. */
  lemma {:induction false} SplitAppend(x: string, c: char, b: string)
    ensures Split(x + [c] + b, c) == Split(x, c) + Split(b, c)
    decreases |x|
  {
    hide Split, Join, CountChar;
    var s := x + [c] + b;
    SplitStep(s, c);
    SplitStep(x, c);
    if x == [] {
      assert s == [c] + b && s[1..] == b;
    } else {
      assert s[1..] == x[1..] + [c] + b;
      SplitAppend(x[1..], c, b);
      var head := Split(x[1..], c);
      if x[0] != c {
        assert (head + Split(b, c))[0] == head[0];
        assert (head + Split(b, c))[1..] == head[1..] + Split(b, c);
      }
    }
  }

  /** One step of `Split`: the first character either ends the first part or joins it. */
  lemma SplitStep(s: string, c: char)
    ensures s == [] ==> Split(s, c) == [""]
    ensures s != [] && s[0] == c ==> Split(s, c) == [""] + Split(s[1..], c)
    ensures s != [] && s[0] != c ==>
      Split(s, c) == [[s[0]] + Split(s[1..], c)[0]] + Split(s[1..], c)[1..]
  {
  }


  /** A string without the separator splits into itself alone. */
  lemma {:induction false} SplitWithoutSeparator(a: string, c: char)
    requires forall i :: 0 <= i < |a| ==> a[i] != c
    ensures Split(a, c) == [a]
    decreases |a|
  {
    if a != [] {
      SplitWithoutSeparator(a[1..], c);
      assert [a[0]] + a[1..] == a;
    }
  }

  /** The longest prefix of `s` holding no whitespace. */
  function Word(s: string): (w: string)
    ensures |w| <= |s| && w == s[..|w|]
    ensures forall i :: 0 <= i < |w| ==> !IsSpace(w[i])
    ensures |w| < |s| ==> IsSpace(s[|w|])
  {
    if s == [] || IsSpace(s[0]) then [] else [s[0]] + Word(s[1..])
  }

  /** A non-empty string without whitespace. */
  predicate IsWord(w: string)
  {
    w != [] && forall i :: 0 <= i < |w| ==> !IsSpace(w[i])
  }

  /** `s.split()`: the maximal runs of non-whitespace characters, in order. */
  function Words(s: string): (r: seq<string>)
    ensures forall k :: 0 <= k < |r| ==> IsWord(r[k])
    decreases |s|
  {
    var t := LStrip(s);
    if t == [] then []
    else
      var w := Word(t);
      assert IsWord(w) by { assert !IsSpace(t[0]); }
      var rest := Words(t[|w|..]);
      [w] + rest
  }

  function DigitChar(d: nat): (c: char)
    requires d < 10
    ensures '0' <= c <= '9'
  {
    ('0' as int + d) as char
  }

  /** `str(n)` for a non-negative integer: decimal digits, no leading zeros. */
  function NatToString(n: nat): (r: string)
    ensures r != []
    ensures forall i :: 0 <= i < |r| ==> '0' <= r[i] <= '9'
  {
    if n < 10 then [DigitChar(n)] else NatToString(n / 10) + [DigitChar(n % 10)]
  }

  /** `str(n)` for any integer. */
  function IntToString(n: int): (r: string)
    ensures r != []
    ensures n >= 0 ==> r == NatToString(n)
    ensures n < 0 ==> r == "-" + NatToString(-n)
  {
    if n < 0 then "-" + NatToString(-n) else NatToString(n)
  }

  predicate IsDigit(c: char)
  {
    '0' <= c <= '9'
  }

  /** The value of a run of decimal digits. */
  function DigitsValue(s: string): (n: nat)
    requires forall i :: 0 <= i < |s| ==> IsDigit(s[i])
  {
    if s == [] then 0
    else
      assert IsDigit(s[|s| - 1]);
      DigitsValue(s[..|s| - 1]) * 10 + (s[|s| - 1] as int - '0' as int)
  }

  /**
   * `int(s)`: surrounding whitespace, an optional sign, then one or more
   * ASCII digits; anything else raises ValueError (`None` here).
   */
  function ParseInt(s: string): (r: Option<int>)
    ensures r.Some? ==> Strip(s) != []
  {
    ParseSigned(Strip(s))
  }

  /** `int(t)` for a string `t` without surrounding whitespace. */
  function ParseSigned(t: string): (r: Option<int>)
    ensures r.Some? ==> t != []
    ensures t != [] && !IsDigit(t[0]) && t[0] != '-' && t[0] != '+' ==> r.None?
  {
    var negative := |t| > 0 && t[0] == '-';
    var body := if |t| > 0 && (t[0] == '-' || t[0] == '+') then t[1..] else t;
    if body != [] && forall i :: 0 <= i < |body| ==> IsDigit(body[i]) then
      var v: int := DigitsValue(body);
      Some(if negative then -v else v)
    else None
  }

  /** The highest index `i` with `lo <= i` and `i + |sub| <= hi` where `sub` occurs, or -1. */
  function RFind(s: string, sub: string, lo: nat, hi: nat): (r: int)
    requires lo <= hi <= |s|
    ensures r == -1 || (lo <= r && r + |sub| <= hi && HasAt(s, r, sub))
    ensures r == -1 ==> forall i :: lo <= i <= hi - |sub| ==> !HasAt(s, i, sub)
    ensures r != -1 ==> forall i :: r < i <= hi - |sub| ==> !HasAt(s, i, sub)
    decreases hi - lo
  {
    if hi - lo < |sub| then -1
    else if s[hi - |sub|..hi] == sub then hi - |sub|
    else RFind(s, sub, lo, hi - 1)
  }

  /** `s[:n]` for any integer `n`: a negative `n` counts from the end, and the slice never goes past either end. */
  function Take<T>(s: seq<T>, n: int): (r: seq<T>)
    ensures n >= 0 ==> |r| == (if n < |s| then n else |s|)
    ensures n < 0 ==> |r| == (if |s| + n > 0 then |s| + n else 0)
    ensures r == s[..|r|]
  {
    if n >= 0 then (if n < |s| then s[..n] else s)
    else if |s| + n > 0 then s[..|s| + n] else []
  }

  /** `s[:n]` for a non-negative `n`. */
  function Prefix<T>(s: seq<T>, n: nat): (r: seq<T>)
    ensures |r| == if n < |s| then n else |s|
    ensures r == s[..|r|]
  {
    if n < |s| then s[..n] else s
  }
}

/** Small value types and string helpers shared by the modules of the model:
    Python's `None`, exceptions as results, `str.join`, `str.strip`, `str.lower`,
    the `in` operator on strings and the order-preserving list filters. */
module Common {

  /** Python's `Optional[T]`: `None` or a value. */
  datatype Option<+T> = None | Some(value: T) {
    function GetOr(default: T): T {
      match this
      case Some(v) => v
      case None => default
    }
  }

  /** A value, or the exception an operation raises instead. */
  datatype Result<+T, +E> = Success(value: T) | Failure(error: E)

  /** Python's truthiness of an optional string: `None` and `""` are false. */
  predicate Truthy(s: Option<string>) {
    s.Some? && s.value != ""
  }

  // ---------------------------------------------------------------- join

  /** `sep.join(parts)`. */
  function Join(parts: seq<string>, sep: string): string
  {
    if |parts| == 0 then ""
    else if |parts| == 1 then parts[0]
    else parts[0] + sep + Join(parts[1..], sep)
  }

  /** Appending a part to a non-empty list adds the separator and the part at the end. */
  lemma {:induction false} JoinSnoc(parts: seq<string>, x: string, sep: string)
    ensures Join(parts + [x], sep) == if parts == [] then x else Join(parts, sep) + sep + x
  {
    if |parts| == 0 {
      assert parts + [x] == [x];
    } else if |parts| == 1 {
      assert parts + [x] == [parts[0], x];
      assert (parts + [x])[1..] == [x];
    } else {
      assert (parts + [x])[1..] == parts[1..] + [x];
      JoinSnoc(parts[1..], x, sep);
    }
  }

  /** The first `n` characters of `a + b` are those of `a`. */
  lemma Starts(a: string, b: string, n: nat)
    requires n <= |a|
    ensures (a + b)[..n] == a[..n]
  {
  }

  /** The last `n` characters of `a + b` are those of `b`. */
  lemma Ends(a: string, b: string, n: nat)
    requires n <= |b|
    ensures (a + b)[|a + b| - n..] == b[|b| - n..]
  {
  }

  /** `b` sits between `a` and `c` in `a + b + c`. */
  lemma Middle(a: string, b: string, c: string)
    ensures |a| + |b| <= |a + b + c| && (a + b + c)[|a|..|a| + |b|] == b
  {
  }

  /** When `b` and `d` differ at position `k`, `d` does not sit right after
      `a` in `a + b + c`. */
  lemma MiddleDiffers(a: string, b: string, c: string, d: string, k: nat)
    requires k < |d| <= |b| && b[k] != d[k]
    ensures |a| + |d| <= |a + b + c| && (a + b + c)[|a|..|a| + |d|] != d
  {
    assert (a + b + c)[|a|..|a| + |d|][k] == b[k];
  }

  /** In `a + (h + m + g + d + x + y + z)`, `m` sits right after `a + h`
      and `d` right after `a + h + m + g`. */
  lemma Embedded(a: string, h: string, m: string, g: string, d: string, x: string, y: string, z: string)
    ensures var r := a + (h + m + g + d + x + y + z);
      && |a + h| + |m| <= |r| && r[|a + h|..|a + h| + |m|] == m
      && |a + h + m + g| + |d| <= |r| && r[|a + h + m + g|..|a + h + m + g| + |d|] == d
  {
    var r := a + (h + m + g + d + x + y + z);
    assert r == (a + h) + m + (g + d + x + y + z);
    assert r == (a + h + m + g) + d + (x + y + z);
    Middle(a + h, m, g + d + x + y + z);
    Middle(a + h + m + g, d, x + y + z);
  }

  // ---------------------------------------------------------------- whitespace and case

  /** The characters for which Python's `str.isspace()` holds; `str.strip()`
      with no argument removes exactly these from both ends. */
  predicate IsSpace(c: char) {
    c in {'\U{0020}', '\U{0009}', '\U{000A}', '\U{000D}', '\U{000B}', '\U{000C}', '\U{001C}', '\U{001D}',
          '\U{001E}', '\U{001F}', '\U{0085}', '\U{00A0}', '\U{1680}', '\U{2000}', '\U{2001}', '\U{2002}',
          '\U{2003}', '\U{2004}', '\U{2005}', '\U{2006}', '\U{2007}', '\U{2008}', '\U{2009}', '\U{200A}',
          '\U{2028}', '\U{2029}', '\U{202F}', '\U{205F}', '\U{3000}'}
  }

  function TrimStart(s: string): (r: string)
    ensures |r| <= |s| && r == s[|s| - |r|..]
    ensures forall k | 0 <= k < |s| - |r| :: IsSpace(s[k])
    ensures r == [] || !IsSpace(r[0])
  {
    if s != [] && IsSpace(s[0]) then
      var r := TrimStart(s[1..]);
      assert s[1..][|s[1..]| - |r|..] == s[|s| - |r|..];
      r
    else s
  }

  function TrimEnd(s: string): (r: string)
    ensures |r| <= |s| && r == s[..|r|]
    ensures forall k | |r| <= k < |s| :: IsSpace(s[k])
    ensures r == [] || !IsSpace(r[|r| - 1])
  {
    if s != [] && IsSpace(s[|s| - 1]) then TrimEnd(s[..|s| - 1]) else s
  }

  /** `s.strip()`: the slice `s[i..j]` left once the white space at both ends
      is removed; it neither starts nor ends with white space. */
  function Strip(s: string): (r: string)
    ensures exists i, j | 0 <= i <= j <= |s| :: StrippedSlice(s, i, j) && r == s[i..j]
    ensures r == [] || (!IsSpace(r[0]) && !IsSpace(r[|r| - 1]))
  {
    var t := TrimStart(s);
    var r := TrimEnd(t);
    assert StrippedSlice(s, |s| - |t|, |s| - |t| + |r|);
    r
  }

  /** `s[i..j]` is what remains of `s` when white space is removed at both ends. */
  ghost predicate StrippedSlice(s: string, i: int, j: int)
  {
    && 0 <= i <= j <= |s|
    && (forall k | 0 <= k < i :: IsSpace(s[k]))
    && (forall k | j <= k < |s| :: IsSpace(s[k]))
  }

  /** A string strips to nothing exactly when it is all white space. */
  lemma StripEmpty(s: string)
    ensures Strip(s) == [] <==> forall k | 0 <= k < |s| :: IsSpace(s[k])
  {
  }

  /** Python's `str.lower()` on one character, for the ASCII letters and the
      upper-case letters of Latin-1 (the ones French text uses). */
  function LowerChar(c: char): (r: char)
  {
    if 'A' <= c <= 'Z' || ('À' <= c <= 'Þ' && c != '×')
    then (c as int + 32) as char
    else c
  }

  function Lower(s: string): (r: string)
    ensures |r| == |s| && forall k | 0 <= k < |s| :: r[k] == LowerChar(s[k])
  {
    if s == [] then [] else [LowerChar(s[0])] + Lower(s[1..])
  }

  /** Stripping a stripped string leaves it as it is. */
  lemma StripIdempotent(s: string)
    ensures Strip(Strip(s)) == Strip(s)
  {
    var r := Strip(s);
    assert TrimStart(r) == r;
    assert TrimEnd(r) == r;
  }

  /** Lower-casing a lower-cased string leaves it as it is. */
  lemma LowerIdempotent(s: string)
    ensures Lower(Lower(s)) == Lower(s)
  {
    assert forall k | 0 <= k < |s| :: LowerChar(LowerChar(s[k])) == LowerChar(s[k]);
  }

  /** Stripping a lower-case string gives a lower-case string. */
  lemma LowerOfStrip(s: string)
    requires Lower(s) == s
    ensures Lower(Strip(s)) == Strip(s)
  {
    var i, j :| 0 <= i <= j <= |s| && StrippedSlice(s, i, j) && Strip(s) == s[i..j];
    assert forall k | 0 <= k < j - i :: s[i..j][k] == s[i + k] && LowerChar(s[i + k]) == Lower(s)[i + k];
  }

  // ---------------------------------------------------------------- substrings

  ghost predicate OccursAt(sub: string, s: string, i: int)
  {
    0 <= i && i + |sub| <= |s| && s[i..i + |sub|] == sub
  }

  /** Python's `sub in s` on strings. */
  ghost predicate IsSubstring(sub: string, s: string)
  {
    exists i :: OccursAt(sub, s, i)
  }

  /** `sub in s`, computed by trying every start position from `from` on. */
  function ContainsFrom(s: string, sub: string, from: nat): (r: bool)
    requires from <= |s| + 1
    ensures r <==> exists i :: from <= i && OccursAt(sub, s, i)
    decreases |s| + 1 - from
  {
    if from + |sub| > |s| then false
    else if s[from..from + |sub|] == sub then assert OccursAt(sub, s, from); true
    else ContainsFrom(s, sub, from + 1)
  }

  function Contains(s: string, sub: string): (r: bool)
    ensures r <==> IsSubstring(sub, s)
  {
    ContainsFrom(s, sub, 0)
  }

  // ---------------------------------------------------------------- lists

  /** `xs` can be obtained from `ys` by deleting elements, keeping the order of the rest. */
  ghost predicate IsSubsequence<T>(xs: seq<T>, ys: seq<T>)
    decreases |ys|
  {
    if xs == [] then true
    else if ys == [] then false
    else (xs[0] == ys[0] && IsSubsequence(xs[1..], ys[1..])) || IsSubsequence(xs, ys[1..])
  }

  /** Putting an element in front of the longer list keeps a subsequence one. */
  lemma SubsequenceDrop<T>(xs: seq<T>, y: T, ys: seq<T>)
    requires IsSubsequence(xs, ys)
    ensures IsSubsequence(xs, [y] + ys)
  {
    assert ([y] + ys)[1..] == ys;
  }

  /** `[q for q in xs if q not in excluded]`. */
  function Remaining(xs: seq<string>, excluded: seq<string>): (r: seq<string>)
    ensures |r| <= |xs|
  {
    if xs == [] then []
    else if xs[0] in excluded then Remaining(xs[1..], excluded)
    else [xs[0]] + Remaining(xs[1..], excluded)
  }

  /** The remaining items are exactly the items of `xs` outside `excluded`,
      in the order of `xs`. */
  lemma {:induction false} RemainingSpec(xs: seq<string>, excluded: seq<string>)
    ensures forall q :: q in Remaining(xs, excluded) <==> q in xs && q !in excluded
    ensures forall q :: multiset(Remaining(xs, excluded))[q] == if q in excluded then 0 else multiset(xs)[q]
    ensures IsSubsequence(Remaining(xs, excluded), xs)
  {
    if xs != [] {
      RemainingSpec(xs[1..], excluded);
      var r := Remaining(xs, excluded);
      assert xs == [xs[0]] + xs[1..];
      if xs[0] !in excluded {
        assert r == [xs[0]] + Remaining(xs[1..], excluded);
        assert r[1..] == Remaining(xs[1..], excluded);
      }
      forall q
        ensures q in r <==> q in xs && q !in excluded
      {
        assert q in xs <==> q == xs[0] || q in xs[1..];
      }
    }
  }

  /** With nothing to exclude every item remains. */
  lemma {:induction false} RemainingNone(xs: seq<string>)
    ensures Remaining(xs, []) == xs
  {
    if xs != [] {
      RemainingNone(xs[1..]);
    }
  }

  /** `[x for x in xs if x]`: the non-empty strings of `xs`. */
  function NonBlank(xs: seq<string>): (r: seq<string>)
    ensures |r| <= |xs|
  {
    if xs == [] then []
    else if xs[0] == "" then NonBlank(xs[1..])
    else [xs[0]] + NonBlank(xs[1..])
  }

  /** The filter keeps exactly the non-empty strings of `xs`, in their order. */
  lemma {:induction false} NonBlankSpec(xs: seq<string>)
    ensures forall x :: x in NonBlank(xs) <==> x in xs && x != ""
    ensures forall x :: multiset(NonBlank(xs))[x] == if x == "" then 0 else multiset(xs)[x]
    ensures IsSubsequence(NonBlank(xs), xs)
  {
    if xs != [] {
      NonBlankSpec(xs[1..]);
      var r := NonBlank(xs);
      assert xs == [xs[0]] + xs[1..];
      if xs[0] != "" {
        assert r == [xs[0]] + NonBlank(xs[1..]);
        assert r[1..] == NonBlank(xs[1..]);
      } else {
        SubsequenceDrop(r, xs[0], xs[1..]);
      }
      forall x
        ensures x in r <==> x in xs && x != ""
      {
        assert x in xs <==> x == xs[0] || x in xs[1..];
      }
    }
  }

  /** `[x for x in xs if keep(x)]`. */
  function Filter<T>(keep: T -> bool, xs: seq<T>): (r: seq<T>)
    ensures |r| <= |xs|
  {
    if xs == [] then []
    else if keep(xs[0]) then [xs[0]] + Filter(keep, xs[1..])
    else Filter(keep, xs[1..])
  }

  /** The filter keeps every occurrence of each kept value and none of the
      others, in the order of `xs`; with the subsequence clause this fixes
      the result. */
  lemma {:induction false} FilterSpec<T>(keep: T -> bool, xs: seq<T>)
    ensures forall x :: multiset(Filter(keep, xs))[x] == if keep(x) then multiset(xs)[x] else 0
    ensures IsSubsequence(Filter(keep, xs), xs)
  {
    if xs != [] {
      FilterSpec(keep, xs[1..]);
      var r := Filter(keep, xs);
      assert xs == [xs[0]] + xs[1..];
      if keep(xs[0]) {
        assert r == [xs[0]] + Filter(keep, xs[1..]);
        assert r[1..] == Filter(keep, xs[1..]);
      } else {
        SubsequenceDrop(r, xs[0], xs[1..]);
      }
    }
  }

  /** Filtering a concatenation filters each part. */
  lemma {:induction false} FilterAppend<T>(keep: T -> bool, xs: seq<T>, ys: seq<T>)
    ensures Filter(keep, xs + ys) == Filter(keep, xs) + Filter(keep, ys)
  {
    if xs == [] {
      assert xs + ys == ys;
    } else {
      assert (xs + ys)[0] == xs[0] && (xs + ys)[1..] == xs[1..] + ys;
      FilterAppend(keep, xs[1..], ys);
    }
  }

  // ---------------------------------------------------------------- numbers

  function DigitChar(d: nat): char
    requires d < 10
  {
    "0123456789"[d]
  }

  /** Python's `str(n)` for a natural number: its decimal digits, no leading zero. */
  function NatToString(n: nat): (r: string)
    ensures r != [] && forall k | 0 <= k < |r| :: '0' <= r[k] <= '9'
    ensures |r| > 1 ==> r[0] != '0'
  {
    if n < 10 then [DigitChar(n)] else NatToString(n / 10) + [DigitChar(n % 10)]
  }

  /** The number a string of decimal digits spells. */
  function DigitsValue(s: string): nat
    requires forall k | 0 <= k < |s| :: '0' <= s[k] <= '9'
  {
    if s == [] then 0 else 10 * DigitsValue(s[..|s| - 1]) + (s[|s| - 1] as int - '0' as int)
  }

  /** The digits `str(n)` writes spell `n`. */
  lemma {:induction false} NatToStringValue(n: nat)
    ensures DigitsValue(NatToString(n)) == n
  {
    if n >= 10 {
      NatToStringValue(n / 10);
      var s := NatToString(n);
      assert s[..|s| - 1] == NatToString(n / 10);
    }
  }
}

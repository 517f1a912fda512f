/** The few Python built-ins the services lean on, with the behaviour CPython gives them:
    raised exceptions, str.strip, str.lower, str.join, list slicing, str(int) and
    list flattening. */
module Builtins {

  /** The outcome of a Python call: a value, or an exception whose str() is `message`. */
  datatype Call<+T> = Done(value: T) | Raised(message: string)

  datatype Option<+T> = None | Some(value: T)

  /** str() of the IndexError a list raises on an index past either end. */
  const IndexOutOfRange := "list index out of range"

  /** xs[i]: a negative index counts from the end. */
  function Subscript<T>(xs: seq<T>, i: int): (r: Call<T>)
    ensures r.Done? <==> -|xs| <= i < |xs|
    ensures 0 <= i < |xs| ==> r == Done(xs[i])
    ensures -|xs| <= i < 0 ==> r == Done(xs[|xs| + i])
    ensures !r.Done? ==> r == Raised(IndexOutOfRange)
  {
    if 0 <= i < |xs| then Done(xs[i])
    else if -|xs| <= i < 0 then Done(xs[|xs| + i])
    else Raised(IndexOutOfRange)
  }

  function Min(a: int, b: int): int { if a <= b then a else b }

  /** Whitespace as CPython's str.isspace(), str.strip() and the regex class \s all see it
      (Py_UNICODE_ISSPACE). */
  predicate IsSpace(c: char) {
    var n := c as int;
    (9 <= n <= 13) || (28 <= n <= 32) || n == 0x85 || n == 0xA0 || n == 0x1680
    || (0x2000 <= n <= 0x200A) || n == 0x2028 || n == 0x2029 || n == 0x202F
    || n == 0x205F || n == 0x3000
  }

  predicate AllSpace(s: string) {
    forall k :: 0 <= k < |s| ==> IsSpace(s[k])
  }

  /** Length of the whitespace run that opens `s`. */
  function LeadingSpace(s: string): (n: nat)
    ensures n <= |s|
    ensures AllSpace(s[..n])
    ensures n < |s| ==> !IsSpace(s[n])
  {
    if s == [] || !IsSpace(s[0]) then 0 else 1 + LeadingSpace(s[1..])
  }

  /** Length of the whitespace run that closes `s`. */
  function TrailingSpace(s: string): (n: nat)
    ensures n <= |s|
    ensures AllSpace(s[|s| - n..])
    ensures n < |s| ==> !IsSpace(s[|s| - 1 - n])
  {
    if s == [] || !IsSpace(s[|s| - 1]) then 0 else 1 + TrailingSpace(s[..|s| - 1])
  }

  /** str.strip(): `s` without its leading and trailing whitespace. Empty exactly when
      `s` is all whitespace, and otherwise neither starts nor ends with whitespace. */
  function Strip(s: string): (r: string)
    ensures r == [] <==> AllSpace(s)
    ensures r != [] ==> !IsSpace(r[0]) && !IsSpace(r[|r| - 1])
  {
    var lo := LeadingSpace(s);
    if lo == |s| then
      assert s[..lo] == s;
      []
    else
      var n := TrailingSpace(s);
      assert !IsSpace(s[lo]);
      assert forall k :: |s| - n <= k < |s| ==> IsSpace(s[k]) by {
        forall k | |s| - n <= k < |s| ensures IsSpace(s[k]) {
          assert s[k] == s[|s| - n..][k - (|s| - n)];
        }
      }
      assert s[lo..|s| - n][|s| - n - lo - 1] == s[|s| - 1 - n];
      s[lo..|s| - n]
  }

  /** What str.strip() removes is whitespace only: the result is a slice of `s` with
      nothing but whitespace before and after it. */
  lemma StripKeepsMiddle(s: string)
    ensures exists i :: 0 <= i <= |s| - |Strip(s)| && Strip(s) == s[i..i + |Strip(s)|]
                        && AllSpace(s[..i]) && AllSpace(s[i + |Strip(s)|..])
  {
    var lo := LeadingSpace(s);
    var r := Strip(s);
    if lo == |s| {
      assert s[..lo] == s;
      assert r == s[0..0] && s[..0] == [] && s[0..] == s;
    } else {
      var n := TrailingSpace(s);
      assert r == s[lo..|s| - n] == s[lo..lo + |r|];
      assert s[lo + |r|..] == s[|s| - n..];
    }
  }

  predicate IsUpper(c: char) { 'A' <= c <= 'Z' }

  /** An upper-case ASCII letter becomes its lower-case letter; anything else is kept. */
  function LowerChar(c: char): (d: char)
    ensures !IsUpper(d)
    ensures IsUpper(c) ==> d as int == c as int + 32
    ensures !IsUpper(c) ==> d == c
  {
    if IsUpper(c) then (c as int + 32) as char else c
  }

  /** str.lower(), on the ASCII letters: same length, each character lowered in place,
      and no upper-case ASCII letter left. */
  function Lower(s: string): (r: string)
    ensures |r| == |s|
    ensures forall k :: 0 <= k < |s| ==> r[k] == LowerChar(s[k])
    ensures forall k :: 0 <= k < |r| ==> !IsUpper(r[k])
  {
    seq(|s|, k requires 0 <= k < |s| => LowerChar(s[k]))
  }

  /** The total length of the parts. */
  function TotalLength(parts: seq<string>): nat {
    if parts == [] then 0 else TotalLength(parts[..|parts| - 1]) + |parts[|parts| - 1]|
  }

  /** sep.join(parts): every part once, in order, with one separator between
      neighbours; so its length is that of the parts plus |parts| - 1 separators. */
  function Join(sep: string, parts: seq<string>): (r: string)
    ensures parts == [] ==> r == ""
    ensures parts != [] ==> |r| + |sep| == TotalLength(parts) + |parts| * |sep|
    ensures parts != [] ==> parts[0] <= r && parts[|parts| - 1] == r[|r| - |parts[|parts| - 1]|..]
  {
    if parts == [] then ""
    else if |parts| == 1 then parts[0]
    else
      var front := parts[..|parts| - 1];
      assert front[0] == parts[0];
      Join(sep, front) + sep + parts[|parts| - 1]
  }

  /** The parts with `sep` between each pair of neighbours: part k at position 2k, a
      separator at every odd position. */
  function Interleave(sep: string, parts: seq<string>): (r: seq<string>)
    requires parts != []
    ensures |r| == 2 * |parts| - 1
  {
    seq(2 * |parts| - 1, i requires 0 <= i < 2 * |parts| - 1 => if i % 2 == 0 then parts[i / 2] else sep)
  }

  /** One more part adds a separator and that part to the end of the interleaving. */
  lemma InterleaveSnoc(sep: string, front: seq<string>, last: string)
    requires front != []
    ensures Interleave(sep, front + [last]) == Interleave(sep, front) + [sep, last]
  {
    var parts := front + [last];
    var n := |front|;
    var whole, f := Interleave(sep, parts), Interleave(sep, front);
    forall k | 0 <= k < |whole| ensures whole[k] == (f + [sep, last])[k] {
      if k < 2 * n - 1 {
        assert k / 2 < n;
        assert parts[k / 2] == front[k / 2];
      } else if k == 2 * n - 1 {
        assert k % 2 == 1;
      } else {
        assert k % 2 == 0 && k / 2 == n;
      }
    }
  }

  /** sep.join(parts) is every part in order with `sep` between neighbours. */
  lemma {:induction false} JoinIsInterleave(sep: string, parts: seq<string>)
    requires parts != []
    ensures Join(sep, parts) == Concat(Interleave(sep, parts))
  {
    var whole := Interleave(sep, parts);
    if |parts| == 1 {
      assert whole == [parts[0]] by {
        assert |whole| == 1 && whole[0] == parts[0];
      }
      assert whole[..0] == [];
    } else {
      var n := |parts| - 1;
      var front := parts[..n];
      var last := parts[n];
      assert front + [last] == parts;
      JoinIsInterleave(sep, front);
      var f := Interleave(sep, front);
      InterleaveSnoc(sep, front, last);
      assert whole == (f + [sep]) + [last];
      ConcatSnoc(f, sep);
      ConcatSnoc(f + [sep], last);
      assert Join(sep, parts) == Join(sep, front) + sep + last;
    }
  }


  /** Where the Python slice xs[start:] begins, for a list of length n. */
  function SliceStart(n: nat, start: int): (r: nat)
    ensures r <= n
    ensures start < 0 ==> r == if n + start < 0 then 0 else n + start
    ensures start >= 0 ==> r == Min(start, n)
  {
    if start < 0 then (if n + start < 0 then 0 else n + start)
    else if start > n then n
    else start
  }

  /** xs[start:] with Python's clamping of negative and out-of-range starts. */
  function SliceFrom<T>(xs: seq<T>, start: int): (r: seq<T>)
    ensures start < 0 ==> |r| == Min(-start, |xs|)
    ensures start >= 0 ==> |r| == if start >= |xs| then 0 else |xs| - start
    ensures r == xs[|xs| - |r|..]
  {
    xs[SliceStart(|xs|, start)..]
  }

  /** The in-order concatenation of a list of lists. */
  function Concat<T>(xss: seq<seq<T>>): seq<T> {
    if xss == [] then [] else Concat(xss[..|xss| - 1]) + xss[|xss| - 1]
  }

  lemma ConcatSnoc<T>(xss: seq<seq<T>>, xs: seq<T>)
    ensures Concat(xss + [xs]) == Concat(xss) + xs
  {
    assert (xss + [xs])[..|xss|] == xss;
  }

  lemma DropLast<T>(xs: seq<T>, ys: seq<T>)
    requires ys != []
    ensures (xs + ys)[..|xs + ys| - 1] == xs + ys[..|ys| - 1]
  {
  }

  /** The in-order concatenation of f(x) over the items x of xs. */
  function FlatMap<T, R>(f: T -> seq<R>, xs: seq<T>): seq<R>
    decreases |xs|
  {
    if xs == [] then [] else f(xs[0]) + FlatMap(f, xs[1..])
  }

  /** When f yields two items for every x, the concatenation holds two per item of xs. */
  lemma {:induction false} FlatMapPairsLength<T, R>(f: T -> seq<R>, xs: seq<T>)
    requires forall k :: 0 <= k < |xs| ==> |f(xs[k])| == 2
    ensures |FlatMap(f, xs)| == 2 * |xs|
    decreases |xs|
  {
    if xs != [] {
      FlatMapPairsLength(f, xs[1..]);
    }
  }

  /** When f yields two items for every x, item 2i and item 2i + 1 of the concatenation
      are the two items f yields for xs[i]. */
  lemma {:induction false} FlatMapPairs<T, R>(f: T -> seq<R>, xs: seq<T>, i: nat)
    requires forall k :: 0 <= k < |xs| ==> |f(xs[k])| == 2
    requires i < |xs|
    ensures |FlatMap(f, xs)| == 2 * |xs|
    ensures FlatMap(f, xs)[2 * i] == f(xs[i])[0] && FlatMap(f, xs)[2 * i + 1] == f(xs[i])[1]
    decreases |xs|
  {
    if |xs| > 1 {
      FlatMapPairs(f, xs[1..], if i > 0 then i - 1 else 0);
    }
  }

  predicate IsDigit(c: char) { '0' <= c <= '9' }

  function DigitChar(d: nat): char
    requires d < 10
  {
    (48 + d) as char
  }

  /** The number a string of decimal digits spells, most significant digit first. */
  function DigitsValue(s: string): nat
    requires forall k :: 0 <= k < |s| ==> IsDigit(s[k])
  {
    if s == [] then 0
    else
      assert IsDigit(s[|s| - 1]);
      DigitsValue(s[..|s| - 1]) * 10 + (s[|s| - 1] as int - '0' as int)
  }

  /** str(n) for a non-negative int: decimal digits that spell n, with no leading zero. */
  function Decimal(n: nat): (r: string)
    ensures |r| >= 1
    ensures forall k :: 0 <= k < |r| ==> IsDigit(r[k])
    ensures DigitsValue(r) == n
    ensures (|r| == 1) == (n < 10)
    ensures r[0] == '0' ==> n == 0
  {
    if n < 10 then [DigitChar(n)]
    else
      var r := Decimal(n / 10) + [DigitChar(n % 10)];
      assert r[..|r| - 1] == Decimal(n / 10);
      r
  }
}

/** Text helpers shared by the emitters: the text of a sequence of appended
    pieces, Java's decimal rendering of integers (`%d` and `"" + i`)
    and `String.replace(char, char)`. */
module TextUtil {

  /** The text a writer holds after appending `f(x)` for each `x` of `xs`, in order. */
  function ConcatMap<T>(xs: seq<T>, f: T -> string): string
  {
    if xs == [] then "" else ConcatMap(xs[..|xs| - 1], f) + f(xs[|xs| - 1])
  }

  lemma {:induction false} ConcatMapAppend<T>(a: seq<T>, b: seq<T>, f: T -> string)
    ensures ConcatMap(a + b, f) == ConcatMap(a, f) + ConcatMap(b, f)
    decreases |b|
  {
    if b == [] {
      assert a + b == a;
    } else {
      var b' := b[..|b| - 1];
      assert (a + b)[..|a + b| - 1] == a + b';
      ConcatMapAppend(a, b', f);
    }
  }

  /** Appending one more item appends its text. */
  lemma ConcatMapSnoc<T>(xs: seq<T>, x: T, f: T -> string)
    ensures ConcatMap(xs + [x], f) == ConcatMap(xs, f) + f(x)
  {
    assert (xs + [x])[..|xs|] == xs;
  }

  /** Prepending one item prepends its text. */
  lemma ConcatMapCons<T>(x: T, xs: seq<T>, f: T -> string)
    ensures ConcatMap([x] + xs, f) == f(x) + ConcatMap(xs, f)
  {
    ConcatMapAppend([x], xs, f);
    assert [x][..0] == [];
  }

  /** The text of a sequence is that of its first item, of the items in
      between and of its last item. */
  lemma {:induction false} ConcatMapFrame<T>(xs: seq<T>, f: T -> string)
    requires |xs| >= 2
    ensures ConcatMap(xs, f) == f(xs[0]) + ConcatMap(xs[1..|xs| - 1], f) + f(xs[|xs| - 1])
  {
    var init, mid := xs[..|xs| - 1], xs[1..|xs| - 1];
    assert init == [xs[0]] + mid;
    ConcatMapCons(xs[0], mid, f);
  }

  /** Appending a concatenation appends its two parts in turn. */
  lemma AppendAssoc<T>(a: seq<T>, b: seq<T>, c: seq<T>)
    ensures a + (b + c) == a + b + c
  {
  }

  /** The last item of a concatenation is that of its non-empty second part. */
  lemma LastOfAppend<T>(a: seq<T>, b: seq<T>)
    requires |b| > 0
    ensures |a + b| > 0 && (a + b)[|a + b| - 1] == b[|b| - 1]
  {
  }

  /** A concatenation starts with its first part. */
  lemma PrefixOfAppend<T>(a: seq<T>, b: seq<T>)
    ensures (a + b)[..|a|] == a
  {
  }

  function DigitChar(d: nat): char
    requires d < 10
  {
    "0123456789"[d]
  }

  predicate IsDigit(c: char)
  {
    '0' <= c <= '9'
  }

  /** Decimal rendering of a non-negative integer, most significant digit first. */
  function NatToString(n: nat): (s: string)
    ensures |s| > 0
    ensures forall i :: 0 <= i < |s| ==> IsDigit(s[i])
    decreases n
  {
    if n < 10 then [DigitChar(n)] else NatToString(n / 10) + [DigitChar(n % 10)]
  }

  /** Decimal rendering of a Java int, with a leading minus sign when negative. */
  function IntToString(i: int): string
  {
    if i < 0 then "-" + NatToString(-i) else NatToString(i)
  }

  lemma NatToStringLength(n: nat)
    ensures n >= 10 ==> |NatToString(n)| >= 2
  {
  }

  /** Distinct numbers have distinct renderings. */
  lemma {:induction false} NatToStringInjective(a: nat, b: nat)
    requires NatToString(a) == NatToString(b)
    ensures a == b
    decreases a
  {
    NatToStringLength(a);
    NatToStringLength(b);
    if a >= 10 && b >= 10 {
      var sa, sb := NatToString(a), NatToString(b);
      assert sa[..|sa| - 1] == NatToString(a / 10);
      assert sb[..|sb| - 1] == NatToString(b / 10);
      NatToStringInjective(a / 10, b / 10);
      assert DigitChar(a % 10) == sa[|sa| - 1] == sb[|sb| - 1] == DigitChar(b % 10);
    }
  }

  /** The rendering of an int consists of digits and the minus sign. */
  lemma IntToStringChars(i: int)
    ensures forall k :: 0 <= k < |IntToString(i)| ==> IsDigit(IntToString(i)[k]) || IntToString(i)[k] == '-'
  {
  }

  /** The rendering of an int starts with a minus sign exactly when it is negative. */
  lemma IntToStringSign(i: int)
    ensures |IntToString(i)| > 0
    ensures IntToString(i)[0] == '-' <==> i < 0
  {
  }

  /** Distinct ints have distinct renderings. */
  lemma IntToStringInjective(a: int, b: int)
    requires IntToString(a) == IntToString(b)
    ensures a == b
  {
    if a < 0 && b < 0 {
      assert IntToString(a)[1..] == NatToString(-a);
      assert IntToString(b)[1..] == NatToString(-b);
      NatToStringInjective(-a, -b);
    } else if a >= 0 && b >= 0 {
      NatToStringInjective(a, b);
    } else {
      IntToStringSign(a);
      IntToStringSign(b);
    }
  }

  /** Java's `String.replace(char, char)`: every occurrence of `from` becomes `to`. */
  function ReplaceChar(s: string, from: char, to: char): (r: string)
    ensures |r| == |s|
    ensures forall i :: 0 <= i < |s| ==> r[i] == (if s[i] == from then to else s[i])
    ensures from != to ==> from !in r
  {
    seq(|s|, i requires 0 <= i < |s| => if s[i] == from then to else s[i])
  }

  /** What follows the last occurrence of `sep` in `s` (all of `s` when there is none). */
  function SuffixAfterLast(s: string, sep: char): (r: string)
    ensures |r| <= |s| && sep !in r
  {
    if s == [] then []
    else if s[|s| - 1] == sep then []
    else SuffixAfterLast(s[..|s| - 1], sep) + [s[|s| - 1]]
  }

  /** A text ending in a separator followed by separator-free text splits
      back at that separator. */
  lemma {:induction false} SuffixAfterLastSplit(prefix: string, sep: char, suffix: string)
    requires sep !in suffix
    ensures SuffixAfterLast(prefix + [sep] + suffix, sep) == suffix
    decreases |suffix|
  {
    var s := prefix + [sep] + suffix;
    if suffix != [] {
      var init := suffix[..|suffix| - 1];
      assert s[..|s| - 1] == prefix + [sep] + init;
      SuffixAfterLastSplit(prefix, sep, init);
      assert init + [suffix[|suffix| - 1]] == suffix;
    }
  }
}

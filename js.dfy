/**
 * The handful of JavaScript value and string semantics the VoiceBloom client
 * relies on: optional values (`undefined`/`null`), the white space that
 * `String.prototype.trim` and the regular-expression class `\s` recognise,
 * `split(sep)[0]`, `Number.prototype.toString` on naturals and `padStart`.
 */
module Js {

  /** A value that may be `undefined` or `null` (both read as None). */
  datatype Option<+T> = None | Some(value: T) {
    /** `x ?? d` */
    function GetOr(default: T): T {
      match this
      case Some(v) => v
      case None => default
    }
  }

  /** A string in a boolean context: only the empty string is falsy. */
  predicate Truthy(s: string) {
    s != ""
  }

  /** `a || b` where `a` is an optional string: `a` unless it is missing or empty. */
  function OrElse(a: Option<string>, b: string): (r: string)
    ensures a.Some? && Truthy(a.value) ==> r == a.value
    ensures !(a.Some? && Truthy(a.value)) ==> r == b
  {
    if a.Some? && a.value != "" then a.value else b
  }

  /**
   * The ECMAScript WhiteSpace and LineTerminator code points (section 12.2 and
   * 12.3 of ECMA-262): what `trim` strips and what `\s` matches.
   */
  predicate IsWhiteSpace(c: char) {
    c == '\t' || c == '\n' || c == '\U{000B}' || c == '\U{000C}' || c == '\r'
    || c == ' ' || c == '\U{00A0}' || c == '\U{1680}'
    || ('\U{2000}' <= c <= '\U{200A}')
    || c == '\U{2028}' || c == '\U{2029}' || c == '\U{202F}' || c == '\U{205F}'
    || c == '\U{3000}' || c == '\U{FEFF}'
  }

  /** Every character of `s` is white space (true of the empty string). */
  predicate AllWhiteSpace(s: string) {
    forall i :: 0 <= i < |s| ==> IsWhiteSpace(s[i])
  }

  /** The number of white-space characters `s` starts with. */
  function LeadingSpace(s: string): (n: nat)
    ensures n <= |s|
    ensures forall k :: 0 <= k < n ==> IsWhiteSpace(s[k])
    ensures n < |s| ==> !IsWhiteSpace(s[n])
  {
    if |s| > 0 && IsWhiteSpace(s[0]) then 1 + LeadingSpace(s[1..]) else 0
  }

  /** Where the white space `s` ends with begins. */
  function TrailingStart(s: string): (n: nat)
    ensures n <= |s|
    ensures forall k :: n <= k < |s| ==> IsWhiteSpace(s[k])
    ensures n > 0 ==> !IsWhiteSpace(s[n - 1])
  {
    if |s| > 0 && IsWhiteSpace(s[|s| - 1]) then TrailingStart(s[..|s| - 1]) else |s|
  }

  /** `s.trimStart()`: the suffix left after dropping leading white space. */
  function TrimStart(s: string): string {
    s[LeadingSpace(s)..]
  }

  /** `s.trimEnd()`: the prefix left after dropping trailing white space. */
  function TrimEnd(s: string): string {
    s[..TrailingStart(s)]
  }

  /** `s.trim()` */
  function Trim(s: string): (r: string)
    ensures r == [] || (!IsWhiteSpace(r[0]) && !IsWhiteSpace(r[|r| - 1]))
  {
    var t := TrimStart(s);
    var r := TrimEnd(t);
    assert r != [] ==> r[0] == t[0] == s[LeadingSpace(s)];
    r
  }

  lemma SliceOfSuffix(s: string, i: int, n: int)
    requires 0 <= i && 0 <= n && i + n <= |s|
    ensures s[i..][..n] == s[i..i + n]
    ensures s[i..][n..] == s[i + n..]
  {
  }

  /** `trim` returns a contiguous slice of its input. */
  lemma TrimIsSlice(s: string)
    ensures var i := |s| - |TrimStart(s)|;
      i + |Trim(s)| <= |s| && Trim(s) == s[i..i + |Trim(s)|]
  {
    SliceOfSuffix(s, LeadingSpace(s), TrailingStart(TrimStart(s)));
  }

  /** Everything `trim` removes, before and after the slice it keeps, is white space. */
  lemma TrimDropsWhiteSpace(s: string)
    ensures var i := |s| - |TrimStart(s)|; var j := i + |Trim(s)|;
      j <= |s| && AllWhiteSpace(s[..i]) && AllWhiteSpace(s[j..])
  {
    var n := LeadingSpace(s);
    var t := TrimStart(s);
    var m := TrailingStart(t);
    forall k | 0 <= k < n ensures IsWhiteSpace(s[..n][k]) {
      assert s[..n][k] == s[k];
    }
    SliceOfSuffix(s, n, m);
    forall k | 0 <= k < |t| - m ensures IsWhiteSpace(t[m..][k]) {
      assert t[m..][k] == t[m + k];
    }
  }

  /** A string trims to nothing exactly when it is all white space. */
  lemma TrimEmptyIffBlank(s: string)
    ensures Trim(s) == "" <==> AllWhiteSpace(s)
  {
    var n := LeadingSpace(s);
    var t := TrimStart(s);
    if !AllWhiteSpace(s) {
      var k :| 0 <= k < |s| && !IsWhiteSpace(s[k]);
      assert n < |s| && t[0] == s[n];
      assert TrailingStart(t) > 0;
    }
  }

  /** Trimming twice is trimming once. */
  lemma TrimIdempotent(s: string)
    ensures Trim(Trim(s)) == Trim(s)
  {
    var r := Trim(s);
    if r != [] {
      assert LeadingSpace(r) == 0 && TrimStart(r) == r;
      assert TrailingStart(r) == |r| && TrimEnd(r) == r;
    }
  }


  /** `s.split(sep)[0]`: the part of `s` before the first `sep`, or all of `s`. */
  function BeforeFirst(s: string, sep: char): (r: string)
    ensures r <= s
    ensures sep !in r
    ensures |r| < |s| ==> s[|r|] == sep
  {
    if s == [] || s[0] == sep then [] else [s[0]] + BeforeFirst(s[1..], sep)
  }

  /** Split at a separator that is not in the first part, the first part is what comes before it. */
  lemma {:induction false} BeforeFirstConcat(a: string, sep: char, b: string)
    requires sep !in a
    ensures BeforeFirst(a + [sep] + b, sep) == a
    ensures AfterFirst(a + [sep] + b, sep) == Some(b)
  {
    if a != [] {
      assert (a + [sep] + b)[1..] == a[1..] + [sep] + b;
      BeforeFirstConcat(a[1..], sep, b);
    }
  }

  /** The text after the first `sep`, when `s` holds one. */
  function AfterFirst(s: string, sep: char): (r: Option<string>)
    ensures r.None? <==> sep !in s
    ensures r.Some? ==> s == BeforeFirst(s, sep) + [sep] + r.value
  {
    var b := BeforeFirst(s, sep);
    if |b| < |s| then Some(s[|b| + 1..]) else None
  }

  predicate IsDigit(c: char) {
    '0' <= c <= '9'
  }

  predicate AllDigits(s: string) {
    forall i :: 0 <= i < |s| ==> IsDigit(s[i])
  }

  function DigitChar(d: nat): (c: char)
    requires d < 10
    ensures IsDigit(c)
  {
    (('0' as int) + d) as char
  }

  function DigitValue(c: char): (d: nat)
    requires IsDigit(c)
    ensures d < 10 && DigitChar(d) == c
  {
    (c as int) - ('0' as int)
  }

  /** `n.toString()` for a natural number: its decimal digits, most significant first. */
  function NatToString(n: nat): (r: string)
    ensures |r| >= 1 && AllDigits(r)
    ensures n < 10 <==> |r| == 1
    ensures |r| > 1 ==> r[0] != '0'
  {
    if n < 10 then [DigitChar(n)] else NatToString(n / 10) + [DigitChar(n % 10)]
  }

  /** The value of a string of decimal digits (leading zeros allowed). */
  function ParseNat(s: string): nat
    requires AllDigits(s)
  {
    if s == [] then 0 else ParseNat(s[..|s| - 1]) * 10 + DigitValue(s[|s| - 1])
  }

  /** Reading back the decimal text of `n` gives `n`. */
  lemma {:induction false} ParseNatToString(n: nat)
    ensures ParseNat(NatToString(n)) == n
  {
    if n >= 10 {
      var s := NatToString(n);
      assert s[..|s| - 1] == NatToString(n / 10);
      ParseNatToString(n / 10);
    }
  }

  /** `s.padStart(width, [c])`: `s` with copies of `c` prepended up to `width` characters. */
  function PadStart(s: string, width: nat, c: char): (r: string)
    ensures |r| == if |s| >= width then |s| else width
    ensures r[|r| - |s|..] == s
    ensures forall i :: 0 <= i < |r| - |s| ==> r[i] == c
    decreases width - |s|
  {
    if |s| >= width then s else PadStart([c] + s, width, c)
  }

  /** `xs.filter(keep)`: the kept elements, in their original order. */
  function Filter<T(!new)>(xs: seq<T>, keep: T -> bool): (out: seq<T>)
    ensures |out| <= |xs|
    ensures forall x :: x in out <==> x in xs && keep(x)
  {
    if xs == [] then []
    else if keep(xs[0]) then [xs[0]] + Filter(xs[1..], keep)
    else Filter(xs[1..], keep)
  }

  /** `x => !keep(x)` */
  function Negate<T>(keep: T -> bool): T -> bool {
    x => !keep(x)
  }

  /** The filter keeps order: it distributes over concatenation. */
  lemma {:induction false} FilterAppend<T(!new)>(a: seq<T>, b: seq<T>, keep: T -> bool)
    ensures Filter(a + b, keep) == Filter(a, keep) + Filter(b, keep)
  {
    if a == [] {
      assert a + b == b;
    } else {
      assert (a + b)[0] == a[0] && (a + b)[1..] == a[1..] + b;
      FilterAppend(a[1..], b, keep);
    }
  }

  /** Every kept element is kept as often as it occurs; every other one is dropped. */
  lemma {:induction false} FilterCounts<T(!new)>(xs: seq<T>, keep: T -> bool, x: T)
    ensures multiset(Filter(xs, keep))[x] == if keep(x) then multiset(xs)[x] else 0
  {
    if xs != [] {
      FilterCounts(xs[1..], keep, x);
      assert xs == [xs[0]] + xs[1..];
    }
  }

  /** A filter that keeps everything returns its input. */
  lemma {:induction false} FilterAll<T(!new)>(xs: seq<T>, keep: T -> bool)
    requires forall x :: x in xs ==> keep(x)
    ensures Filter(xs, keep) == xs
  {
    if xs != [] {
      FilterAll(xs[1..], keep);
    }
  }

  /** Filtering twice with the same test is filtering once. */
  lemma FilterIdempotent<T(!new)>(xs: seq<T>, keep: T -> bool)
    ensures Filter(Filter(xs, keep), keep) == Filter(xs, keep)
  {
    FilterAll(Filter(xs, keep), keep);
  }

  /** A test and its negation split a list: their filters' lengths add up to its length. */
  lemma {:induction false} FilterSplit<T(!new)>(xs: seq<T>, keep: T -> bool)
    ensures |Filter(xs, keep)| + |Filter(xs, Negate(keep))| == |xs|
  {
    if xs != [] {
      FilterSplit(xs[1..], keep);
    }
  }

  /** `a` is `b` with some elements left out, the rest in their order. */
  ghost predicate SubsequenceOf<T>(a: seq<T>, b: seq<T>) {
    if a == [] then true
    else if b == [] then false
    else if a[0] == b[0] then SubsequenceOf(a[1..], b[1..])
    else SubsequenceOf(a, b[1..])
  }

  /** The filter keeps the kept elements in their original order. */
  lemma {:induction false} FilterSubsequence<T(!new)>(xs: seq<T>, keep: T -> bool)
    ensures SubsequenceOf(Filter(xs, keep), xs)
  {
    if xs != [] {
      FilterSubsequence(xs[1..], keep);
    }
  }
}

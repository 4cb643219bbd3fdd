/** Small shared vocabulary: optional values, results, file-system paths,
    the Rust numeric casts the program relies on, and decimal rendering of
    natural numbers as used by its `format!` calls. */
module Base {

  datatype Option<+T> = None | Some(value: T)

  datatype Result<+T, +E> = Ok(value: T) | Err(error: E)

  /** A path is a sequence of components; `PathBuf::push` of a relative name
      appends one component. */
  datatype Path = Path(parts: seq<string>)

  function Join(dir: Path, name: string): (p: Path)
    ensures |p.parts| == |dir.parts| + 1
    ensures p.parts[..|dir.parts|] == dir.parts && p.parts[|dir.parts|] == name
  {
    Path(dir.parts + [name])
  }

  /** `Path::file_name`: the last component, absent for an empty path or one
      that ends in "..". */
  function FileName(p: Path): (r: Option<string>)
    ensures r.Some? <==> |p.parts| > 0 && p.parts[|p.parts| - 1] != ".."
    ensures r.Some? ==> r.value == p.parts[|p.parts| - 1]
  {
    if |p.parts| > 0 && p.parts[|p.parts| - 1] != ".." then Some(p.parts[|p.parts| - 1]) else None
  }

  /** Rust `x as u64` / `x as usize` on a float: truncation toward zero,
      negative values saturate to 0 (the upper saturation bound is not reached
      by any value in this program and is not modelled). */
  function TruncToNat(x: real): (n: nat)
    ensures x <= 0.0 ==> n == 0
    ensures x >= 0.0 ==> n as real <= x < n as real + 1.0
  {
    if x <= 0.0 then 0 else x.Floor
  }

  /** Rust `x as i16` on a float: truncation toward zero, saturating at the
      bounds of i16. */
  function TruncToI16(x: real): (n: int)
    ensures -32768 <= n <= 32767
    ensures -32768.0 <= x < 32768.0 ==> -1.0 < x - n as real < 1.0
    ensures x >= 0.0 ==> 0 <= n && n as real <= x
    ensures x <= 0.0 ==> n <= 0 && x <= n as real
    ensures x >= 32767.0 ==> n == 32767
    ensures x <= -32768.0 ==> n == -32768
  {
    var t := if x >= 0.0 then x.Floor else -((-x).Floor);
    if t > 32767 then 32767 else if t < -32768 then -32768 else t
  }

  function Digit(d: nat): (c: char)
    requires d < 10
    ensures '0' <= c <= '9'
  {
    (('0' as int) + d) as char
  }

  function DigitValue(c: char): (d: nat)
    requires '0' <= c <= '9'
    ensures d < 10 && Digit(d) == c
  {
    (c as int - '0' as int)
  }

  predicate AllDigits(s: string)
  {
    forall i :: 0 <= i < |s| ==> '0' <= s[i] <= '9'
  }

  /** Decimal rendering of a natural number, as `{}` prints an unsigned integer. */
  function NatToString(n: nat): (s: string)
    ensures |s| >= 1 && AllDigits(s)
    ensures n < 10 <==> |s| == 1
    ensures |s| > 1 ==> s[0] != '0'
  {
    if n < 10 then [Digit(n)] else NatToString(n / 10) + [Digit(n % 10)]
  }

  /** Reads a string of decimal digits back as a number. */
  function ParseDecimal(s: string): nat
    requires AllDigits(s)
  {
    if |s| == 0 then 0 else 10 * ParseDecimal(s[..|s| - 1]) + DigitValue(s[|s| - 1])
  }

  lemma {:induction false} ParseNatToString(n: nat)
    ensures ParseDecimal(NatToString(n)) == n
  {
    if n >= 10 {
      var s := NatToString(n);
      assert s[..|s| - 1] == NatToString(n / 10);
      ParseNatToString(n / 10);
    }
  }

  /** `{:0width$}` with width 2: at least two digits, zero-padded on the left. */
  function ZeroPad2(n: nat): (s: string)
    ensures |s| >= 2 && AllDigits(s)
    ensures ParseDecimal(s) == n
    ensures n < 100 ==> |s| == 2
  {
    ParseNatToString(n);
    if n < 10 then
      assert ParseDecimal("0" + NatToString(n)) == n by {
        var t := "0" + NatToString(n);
        assert t[..|t| - 1] == "0";
      }
      "0" + NatToString(n)
    else NatToString(n)
  }

  /** Sum of a sequence of naturals. */
  function SumNat(xs: seq<nat>): nat
  {
    if |xs| == 0 then 0 else SumNat(xs[..|xs| - 1]) + xs[|xs| - 1]
  }

  /** Sum of a sequence of reals. */
  function SumReal(xs: seq<real>): real
  {
    if |xs| == 0 then 0.0 else SumReal(xs[..|xs| - 1]) + xs[|xs| - 1]
  }

  /** The elements of `xs` satisfying `p`, in their original order (Rust's
      `into_iter().filter(p).collect()`). */
  function Filter<T>(xs: seq<T>, p: T -> bool): (r: seq<T>)
    ensures |r| <= |xs|
    ensures forall i :: 0 <= i < |r| ==> p(r[i])
    ensures forall i :: 0 <= i < |r| ==> r[i] in xs
    ensures forall i :: 0 <= i < |xs| && p(xs[i]) ==> xs[i] in r
  {
    if |xs| == 0 then [] else
      var rest := Filter(xs[..|xs| - 1], p);
      assert xs == xs[..|xs| - 1] + [xs[|xs| - 1]];
      if p(xs[|xs| - 1]) then rest + [xs[|xs| - 1]] else rest
  }

  /** Filtering keeps every passing element as often as it occurs and drops
      every other one. */
  lemma {:induction false} FilterCounts<T>(xs: seq<T>, p: T -> bool)
    ensures forall x :: multiset(Filter(xs, p))[x] == if p(x) then multiset(xs)[x] else 0
    decreases |xs|
  {
    if |xs| > 0 {
      var init, last := xs[..|xs| - 1], xs[|xs| - 1];
      FilterCounts(init, p);
      assert xs == init + [last];
      assert multiset(xs) == multiset(init) + multiset{last};
      if p(last) {
        assert multiset(Filter(xs, p)) == multiset(Filter(init, p)) + multiset{last};
      }
    }
  }

  /** Filtering a single element keeps it exactly when it passes. */
  lemma FilterSingle<T>(x: T, p: T -> bool)
    ensures Filter([x], p) == if p(x) then [x] else []
  {
    assert [x][..0] == [];
  }

  /** Filtering distributes over concatenation, so it keeps relative order. */
  lemma {:induction false} FilterConcat<T>(a: seq<T>, b: seq<T>, p: T -> bool)
    ensures Filter(a + b, p) == Filter(a, p) + Filter(b, p)
  {
    if |b| == 0 {
      assert a + b == a;
    } else {
      var b' := b[..|b| - 1];
      assert (a + b)[..|a + b| - 1] == a + b';
      FilterConcat(a, b', p);
    }
  }

  /** Filtering twice by the same predicate is filtering once. */
  lemma {:induction false} FilterIdempotent<T>(xs: seq<T>, p: T -> bool)
    ensures Filter(Filter(xs, p), p) == Filter(xs, p)
  {
    if |xs| > 0 {
      var init := xs[..|xs| - 1];
      FilterIdempotent(init, p);
      var x := xs[|xs| - 1];
      if p(x) {
        FilterConcat(Filter(init, p), [x], p);
        assert Filter([x], p) == [x] by {
          assert [x][..0] == [];
        }
      }
    }
  }

  /** Filtering by a predicate no element satisfies leaves nothing. */
  lemma {:induction false} FilterNone<T>(xs: seq<T>, p: T -> bool)
    requires forall i :: 0 <= i < |xs| ==> !p(xs[i])
    ensures Filter(xs, p) == []
  {
    if |xs| > 0 {
      FilterNone(xs[..|xs| - 1], p);
    }
  }
}

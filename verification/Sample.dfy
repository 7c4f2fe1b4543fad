/** The sliding window of pkg/podmanager/sample/sample.go, over `real`. */
module Sample {

  /** `math.MinInt64` as a float: the seed of `Max`. */
  const MIN_INT64: real := -9223372036854775808.0

  /** The last `n` inputs, oldest first, or all of them when there are fewer. */
  function Suffix<T>(s: seq<T>, n: nat): seq<T> {
    if |s| <= n then s else s[|s| - n..]
  }

  lemma SuffixIsLast<T>(s: seq<T>, n: nat)
    ensures var r := Suffix(s, n);
            |r| == (if |s| <= n then |s| else n) && s == s[..|s| - |r|] + r
  {
  }

  /** One `Update`: append, then cut back to the window length. */
  function Push(window: seq<real>, n: nat, v: real): seq<real> {
    Suffix(window + [v], n)
  }

  function PushAll(window: seq<real>, n: nat, vs: seq<real>): seq<real>
    decreases vs
  {
    if vs == [] then window else PushAll(Push(window, n, vs[0]), n, vs[1..])
  }

  function SumOf(s: seq<real>): real {
    if s == [] then 0.0 else SumOf(s[..|s| - 1]) + s[|s| - 1]
  }

  function MeanOf(s: seq<real>): real {
    if s == [] then 0.0 else SumOf(s) / (|s| as real)
  }

  /** A sum is what adding up its parts gives, in any bracketing. */
  lemma {:induction false} SumIsAdditive(s: seq<real>, t: seq<real>)
    ensures SumOf(s + t) == SumOf(s) + SumOf(t)
    ensures forall x: real :: SumOf([x]) == x
  {
    assert forall x: real :: [x][..0] == [];
    if t == [] {
      assert s + t == s;
    } else {
      SumIsAdditive(s, t[..|t| - 1]);
      assert (s + t)[..|s + t| - 1] == s + t[..|t| - 1];
    }
  }

  /** The mean times the number of values is their sum. */
  lemma MeanIsAverage(s: seq<real>)
    ensures s != [] ==> MeanOf(s) * |s| as real == SumOf(s)
    ensures s == [] ==> MeanOf(s) == 0.0
  {
  }

  /** Running maximum seeded with `MIN_INT64`, as the source's loop computes it. */
  function MaxSeeded(s: seq<real>): real {
    if s == [] then MIN_INT64
    else
      var m := MaxSeeded(s[..|s| - 1]);
      if m < s[|s| - 1] then s[|s| - 1] else m
  }

  function MaxOf(s: seq<real>): real {
    if s == [] then 0.0 else MaxSeeded(s)
  }

  function Zeros(n: nat): (s: seq<real>)
    ensures |s| == n && forall i :: 0 <= i < n ==> s[i] == 0.0
  {
    seq(n, _ => 0.0)
  }

  ghost predicate NonNegative(s: seq<real>) {
    forall i :: 0 <= i < |s| ==> s[i] >= 0.0
  }

  /** Cutting a suffix before appending changes nothing that a later cut keeps. */
  lemma PushSuffix(h: seq<real>, n: nat, v: real)
    ensures Push(Suffix(h, n), n, v) == Suffix(h + [v], n)
  {
    if |h| > n {
      assert (Suffix(h, n) + [v])[1..] == (h + [v])[|h| + 1 - n..];
    }
  }

  /** After any inputs the window holds exactly the last `n` of the whole history. */
  lemma {:induction false} WindowRefinesHistory(h: seq<real>, n: nat, vs: seq<real>)
    ensures PushAll(Suffix(h, n), n, vs) == Suffix(h + vs, n)
    decreases vs
  {
    if vs == [] {
      assert h + vs == h;
    } else {
      PushSuffix(h, n, vs[0]);
      WindowRefinesHistory(h + [vs[0]], n, vs[1..]);
      assert h + [vs[0]] + vs[1..] == h + vs;
    }
  }

  /** As many zeros as the window is long flush everything earlier out of it. */
  lemma FlushLeavesZeros(h: seq<real>, n: nat)
    ensures PushAll(Suffix(h, n), n, Zeros(n)) == Zeros(n)
    ensures MeanOf(PushAll(Suffix(h, n), n, Zeros(n))) == 0.0
  {
    WindowRefinesHistory(h, n, Zeros(n));
    assert Suffix(h + Zeros(n), n) == Zeros(n);
    SumOfZeros(n);
  }

  lemma {:induction false} SumOfZeros(n: nat)
    ensures SumOf(Zeros(n)) == 0.0
  {
    if n > 0 {
      assert Zeros(n)[..n - 1] == Zeros(n - 1);
      SumOfZeros(n - 1);
    }
  }

  lemma {:induction false} MeanOfNonNegative(s: seq<real>)
    requires NonNegative(s)
    ensures SumOf(s) >= 0.0 && MeanOf(s) >= 0.0
  {
    if s != [] {
      MeanOfNonNegative(s[..|s| - 1]);
    }
  }

  /** `MaxSeeded` bounds every value, and is one of them exactly when some value reaches the
      seed: with every value below -2^63 the source's `Max` is not a maximum. */
  lemma {:induction false} MaxIsAttained(s: seq<real>)
    ensures forall v :: v in s ==> v <= MaxSeeded(s)
    ensures -9223372036854775808.0 <= MaxSeeded(s)
    ensures MaxSeeded(s) in s <==> exists v :: v in s && v >= -9223372036854775808.0
    ensures MaxSeeded(s) in s || MaxSeeded(s) == -9223372036854775808.0
  {
    if s != [] {
      var t, x := s[..|s| - 1], s[|s| - 1];
      assert s == t + [x];
      MaxIsAttained(t);
      if MaxSeeded(s) in s {
        assert MaxSeeded(s) >= MIN_INT64;
      }
    }
  }

  /** pkg/podmanager/sample/sample.go `FixLengthSample`, with its full input history as a ghost. */
  class FixLengthSample {
    const maxLength: nat
    var values: seq<real>
    var lastValue: real
    ghost var history: seq<real>

    ghost predicate Valid()
      reads this
    {
      && values == Suffix(history, maxLength)
      && lastValue == if history == [] then 0.0 else history[|history| - 1]
    }

    constructor (maxLength: nat)
      ensures Valid() && history == [] && this.maxLength == maxLength
    {
      this.maxLength := maxLength;
      values, lastValue := [], 0.0;
      history := [];
    }

    method Update(v: real)
      requires Valid()
      modifies this
      ensures Valid()
      ensures history == old(history) + [v]
      ensures values == Push(old(values), maxLength, v)
    {
      PushSuffix(history, maxLength, v);
      values := values + [v];
      lastValue := v;
      if |values| > maxLength {
        var length := |values|;
        values := values[length - maxLength..length];
      }
      history := history + [v];
    }

    function Last(): (v: real)
      requires Valid()
      reads this
      ensures v == if history == [] then 0.0 else history[|history| - 1]
    {
      lastValue
    }

    function Count(): nat
      reads this
    {
      |values|
    }

    method Max() returns (m: real)
      requires Valid()
      ensures m == MaxOf(Suffix(history, maxLength))
      ensures forall v :: v in values ==> v <= m
      ensures (exists v :: v in values && v >= -9223372036854775808.0) ==> m in values
      ensures values == [] ==> m == 0.0
    {
      MaxIsAttained(values);
      if |values| == 0 {
        return 0.0;
      }
      m := MIN_INT64;
      for i := 0 to |values|
        invariant m == MaxSeeded(values[..i])
      {
        assert values[..i + 1][..i] == values[..i];
        if m < values[i] {
          m := values[i];
        }
      }
      assert values[..|values|] == values;
    }

    method Sum() returns (sum: real)
      requires Valid()
      ensures sum == SumOf(Suffix(history, maxLength))
    {
      sum := 0.0;
      for i := 0 to |values|
        invariant sum == SumOf(values[..i])
      {
        assert values[..i + 1][..i] == values[..i];
        sum := sum + values[i];
      }
      assert values[..|values|] == values;
    }

    method Mean() returns (mean: real)
      requires Valid()
      ensures mean == MeanOf(Suffix(history, maxLength))
      ensures values == [] ==> mean == 0.0
      ensures values != [] ==> mean * |values| as real == SumOf(values)
    {
      if |values| == 0 {
        return 0.0;
      }
      var sum := Sum();
      mean := sum / (Count() as real);
    }
  }
}

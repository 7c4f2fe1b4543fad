/** Core lists, their text form, and the three-way split of a node's cores
    (pkg/podmanager/resource.go:47-90 and pkg/podmanager/resource_controller.go:579-645). */
module Cpuset {
  import opened Words

  /** The cores `lo`, `lo + 1`, ..., `hi - 1`. */
  function Span(lo: Word, hi: int): (cpus: seq<Word>)
    requires lo <= hi <= WORD
    ensures |cpus| == hi - lo && forall i :: 0 <= i < hi - lo ==> cpus[i] == lo + i
  {
    seq(hi - lo, i requires 0 <= i < hi - lo => (lo + i) as Word)
  }

  function CoreSet(cpus: seq<Word>): set<Word> {
    set c | c in cpus
  }

  // ----- the text handed to the cgroup library

  function CpusetText(cpus: seq<Word>): string {
    if cpus == [] then ""
    else
      var t := CpusetText(cpus[..|cpus| - 1]);
      (if t != "" then t + "," else t) + Decimal(cpus[|cpus| - 1])
  }

  /** `cpusetString`. */
  method CpusetString(cpus: seq<Word>) returns (retval: string)
    ensures retval == CpusetText(cpus)
  {
    retval := "";
    for i := 0 to |cpus|
      invariant retval == CpusetText(cpus[..i])
    {
      assert cpus[..i + 1][..i] == cpus[..i];
      if retval != "" {
        retval := retval + ",";
      }
      retval := retval + Decimal(cpus[i]);
    }
    assert cpus[..|cpus|] == cpus;
  }

  /** A reader of comma-separated decimal lists: the last number is the one being read. */
  function ParseCpus(s: string): seq<int> {
    if s == "" then []
    else
      var before := ParseCpus(s[..|s| - 1]);
      var c := s[|s| - 1];
      if c == ',' then before + [0] else WithDigit(before, c as int - '0' as int)
  }

  /** One more digit moves the last number on by one place. */
  function WithDigit(before: seq<int>, d: int): seq<int> {
    if before == [] then [d] else before[..|before| - 1] + [10 * before[|before| - 1] + d]
  }

  lemma ParseDigit(s: string, d: nat)
    requires d < 10
    ensures ParseCpus(s + [Digit(d)]) == WithDigit(ParseCpus(s), d)
  {
    var t := s + [Digit(d)];
    assert t[..|t| - 1] == s && t[|t| - 1] == Digit(d) != ',';
  }

  lemma NumberGrows(front: seq<int>, n: nat)
    ensures WithDigit(front + [n / 10], n % 10) == front + [n]
  {
  }

  lemma ParseComma(s: string)
    requires s != "" && s[|s| - 1] == ','
    ensures ParseCpus(s) == ParseCpus(s[..|s| - 1]) + [0]
  {
  }

  lemma {:induction false} ParseNumber(s: string, n: nat)
    requires s == "" || s[|s| - 1] == ','
    ensures ParseCpus(s + Decimal(n))
         == (if s == "" then [] else ParseCpus(s)[..|ParseCpus(s)| - 1]) + [n]
  {
    if s != "" {
      ParseComma(s);
    }
    if n < 10 {
      ParseDigit(s, n);
    } else {
      ParseNumber(s, n / 10);
      ParseDigit(s + Decimal(n / 10), n % 10);
      NumberGrows(if s == "" then [] else ParseCpus(s)[..|ParseCpus(s)| - 1], n);
      assert s + Decimal(n / 10) + [Digit(n % 10)] == s + Decimal(n);
    }
  }

  /** The text names exactly the listed cores, in order: nothing is lost or merged. */
  lemma {:induction false} CpusetTextRoundTrip(cpus: seq<Word>)
    ensures ParseCpus(CpusetText(cpus)) == cpus
    ensures CpusetText(cpus) == "" <==> cpus == []
  {
    if cpus != [] {
      var front := cpus[..|cpus| - 1];
      CpusetTextRoundTrip(front);
      var t := CpusetText(front);
      var s := if t != "" then t + "," else t;
      if t != "" {
        assert s[..|s| - 1] == t;
      }
      ParseNumber(s, cpus[|cpus| - 1]);
      assert cpus == front + [cpus[|cpus| - 1]];
    }
  }

  lemma SameTextSameCores(a: seq<Word>, b: seq<Word>)
    requires CpusetText(a) == CpusetText(b)
    ensures a == b
  {
    CpusetTextRoundTrip(a);
    CpusetTextRoundTrip(b);
  }

  // ----- the split of the node

  /** `n` is the least number of cores that makes up three percent of the machine. */
  predicate IsThreePercent(n: int, cores: int) {
    100 * (n - 1) < 3 * cores <= 100 * n
  }

  /** `uint64(math.Ceil(float64(Cores) * 0.03))`. */
  function MinBeCores(cores: Word): (n: Word)
    requires cores >= 1
    ensures 1 <= n <= cores && IsThreePercent(n, cores)
  {
    Ceil(cores as real * 0.03)
  }

  /** Cores from the top of the machine that best-effort pods get. */
  function BeCores(cores: Word, lc: Word, mix: Word): Word
    requires cores >= 1
  {
    MaxWord(Sub64(Sub64(cores, lc), mix), MinBeCores(cores))
  }

  /** Cores from the top that latency-critical pods on the BE set and BE pods on the MIX set get. */
  function MixCores(cores: Word, lc: Word): Word
    requires cores >= 1
  {
    MaxWord(Sub64(cores, lc), MinBeCores(cores))
  }

  /** Last core of the MIX range, computed with wrapping subtraction. */
  function MixRangeEnd(cores: Word, lc: Word, mix: Word): Word {
    MinWord(Sub64(cores, 1), Sub64(Add64(lc, mix), 1))
  }

  function LowerCpus(number: Word): seq<Word> {
    Span(0, number)
  }

  function UpperCpus(cores: Word, number: Word): seq<Word>
    requires number <= cores
  {
    Span(cores - number, cores)
  }

  lemma SpanSet(lo: Word, hi: int)
    requires lo <= hi <= WORD
    ensures |CoreSet(Span(lo, hi))| == hi - lo
    ensures forall c: Word :: c in CoreSet(Span(lo, hi)) <==> lo <= c < hi
    decreases hi - lo
  {
    forall c: Word | lo <= c < hi
      ensures c in CoreSet(Span(lo, hi))
    {
      assert Span(lo, hi)[c - lo] == c;
    }
    if lo < hi {
      SpanSet(lo, hi - 1);
      assert CoreSet(Span(lo, hi)) == CoreSet(Span(lo, hi - 1)) + {(hi - 1) as Word};
    }
  }

  /** Two spans, one ending where the machine's lower part ends and one reaching to its top. */
  lemma SpansOverlap(lc: Word, from: Word, cores: Word)
    requires lc <= cores && from < cores
    ensures var lower, upper := CoreSet(Span(0, lc)), CoreSet(Span(from, cores));
            && |lower * upper| == (if from <= lc then lc - from else 0)
            && (lower !! upper <==> lc <= from)
  {
    var lower, upper := CoreSet(Span(0, lc)), CoreSet(Span(from, cores));
    SpanSet(0, lc);
    SpanSet(from, cores);
    if from < lc {
      SpanSet(from, lc);
      assert lower * upper == CoreSet(Span(from, lc));
      assert from in lower && from in upper;
    } else {
      assert lower * upper == {};
    }
  }

  /** Where the BE set starts, free of wraparound when no core is reserved for MIX. */
  lemma BeSetStart(cores: Word, lc: Word)
    requires 1 <= cores && lc <= cores
    ensures BeCores(cores, lc, 0) == MixCores(cores, lc) <= cores
    ensures cores - BeCores(cores, lc, 0)
         == (if lc <= cores - MinBeCores(cores) then lc else cores - MinBeCores(cores))
  {
  }

  /** There is exactly one such number on every machine. */
  lemma ThreePercentIsUnique(cores: Word, n: int)
    requires cores >= 1
    ensures IsThreePercent(n, cores) <==> n == MinBeCores(cores)
  {
  }

  lemma SplitAt(cores: Word, lc: Word, from: Word)
    requires from < cores && from <= lc <= cores
    ensures var lower, upper := CoreSet(Span(0, lc)), CoreSet(Span(from, cores));
            && (forall c: Word :: c in lower <==> c < lc)
            && (forall c: Word :: c in upper <==> from <= c < cores)
            && (forall c: Word :: c in lower + upper <==> c < cores)
            && |lower * upper| == lc - from
            && (lower !! upper <==> lc == from)
  {
    SpanSet(0, lc);
    SpanSet(from, cores);
    SpansOverlap(lc, from, cores);
  }

  /** On a node of `cores` cores with `lc` of them demanded, the LC set is `[0, lc)` and the BE
      set is `[min(lc, cores - minBe), cores)`, where `minBe` is three percent of the cores.
      Together they cover the machine, the BE set is never empty, and they share exactly
      `max(0, lc + minBe - cores)` cores. */
  lemma SplitCoversTheNode(cores: Word, lc: Word, minBe: int)
    requires 1 <= cores && lc <= cores && 100 * (minBe - 1) < 3 * cores <= 100 * minBe
    ensures BeCores(cores, lc, 0) == MixCores(cores, lc) <= cores
    ensures var lower := CoreSet(LowerCpus(lc));
            var upper := CoreSet(UpperCpus(cores, BeCores(cores, lc, 0)));
            var from := if lc <= cores - minBe then lc else cores - minBe;
            && 0 <= from < cores
            && (forall c: Word :: c in lower <==> c < lc)
            && (forall c: Word :: c in upper <==> from <= c < cores)
            && (forall c: Word :: c in lower + upper <==> c < cores)
            && |lower * upper| == (if lc + minBe >= cores then lc + minBe - cores else 0)
            && (lower !! upper <==> lc + minBe <= cores)
  {
    ThreePercentIsUnique(cores, minBe);
    BeSetStart(cores, lc);
    SplitAt(cores, lc, cores - BeCores(cores, lc, 0));
  }

  /** The MIX range under wrapping arithmetic. With no MIX demand it is the whole machine when
      nothing is latency-critical, and empty (the pods then follow the LC set) otherwise. With
      demand that fits it is the block right above the LC set. It never reaches past the last
      core, so the counting loop cannot wrap. */
  lemma MixRangeUnderWraparound(cores: Word, lc: Word, mix: Word)
    requires 1 <= cores && lc + mix <= cores
    ensures MixRangeEnd(cores, lc, mix) <= cores - 1 < MAX_WORD
    ensures mix > 0 ==> lc <= MixRangeEnd(cores, lc, mix) == lc + mix - 1
    ensures mix == 0 && lc == 0 ==> MixRangeEnd(cores, lc, mix) == cores - 1
    ensures mix == 0 ==> (MixRangeEnd(cores, lc, mix) < lc <==> lc > 0)
  {
    if lc + mix == 0 {
      assert Sub64(Add64(lc, mix), 1) == MAX_WORD;
    }
  }
}

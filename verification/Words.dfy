/** Go's `uint64` arithmetic and text, and the few real-number helpers the resource code needs. */
module Words {

  const WORD := 0x1_0000_0000_0000_0000

  /** A value of Go's `uint64`. */
  type Word = x: int | 0 <= x < WORD

  const MAX_WORD: Word := WORD - 1

  /** `DefaultCPUPeriod`, in microseconds (pkg/podmanager/sdk/const.go). */
  const DEFAULT_CPU_PERIOD: Word := 100000

  /** `a + b` on `uint64`: wraps modulo 2^64. */
  function Add64(a: Word, b: Word): Word {
    (a + b) % WORD
  }

  /** `a - b` on `uint64`: wraps modulo 2^64. */
  function Sub64(a: Word, b: Word): Word {
    (a - b) % WORD
  }

  /** What wrapping does, and that it can be undone. */
  lemma WrapsAround(a: Word, b: Word)
    ensures Add64(a, b) == if a + b < 0x1_0000_0000_0000_0000 then a + b else a + b - 0x1_0000_0000_0000_0000
    ensures Sub64(a, b) == if b <= a then a - b else a - b + 0x1_0000_0000_0000_0000
    ensures Sub64(Add64(a, b), b) == a
  {
  }

  function MinWord(a: Word, b: Word): Word {
    if a <= b then a else b
  }

  function MaxWord(a: Word, b: Word): Word {
    if a <= b then b else a
  }

  function MaxReal(a: real, b: real): real {
    if a <= b then b else a
  }

  function MinReal(a: real, b: real): real {
    if a <= b then a else b
  }

  /** `math.Ceil`: the least integer not below `r`. */
  function Ceil(r: real): (c: int)
    ensures r <= c as real < r + 1.0
  {
    -((-r).Floor)
  }

  /** The conversion `uint64(r)`. Go defines it only when the truncated value fits;
      `wild` stands for whatever the platform yields otherwise. */
  function ToWord(r: real, wild: Word): Word {
    var t := if r < 0.0 then Ceil(r) else r.Floor;
    if 0 <= t < WORD then t else wild
  }

  /** The conversion truncates towards zero whatever fits. */
  lemma ToWordTruncates(r: real, wild: Word)
    ensures 0.0 <= r < 18446744073709551616.0 ==> ToWord(r, wild) as real <= r < ToWord(r, wild) as real + 1.0
    ensures -1.0 < r < 0.0 ==> ToWord(r, wild) == 0
    ensures r <= -1.0 || r >= 18446744073709551616.0 ==> ToWord(r, wild) == wild
  {
  }

  function Digit(d: nat): char
    requires d < 10
  {
    ('0' as int + d) as char
  }

  /** `strconv.FormatUint(n, 10)`. */
  function Decimal(n: nat): (s: string)
    ensures s != ""
  {
    if n < 10 then [Digit(n)] else Decimal(n / 10) + [Digit(n % 10)]
  }
}

/** The label readers of pkg/helper/pod.go and the constants of pkg/podmanager/sdk/const.go. */
module PodLabels {
  import opened Options
  import opened Words

  type Labels = map<string, string>

  datatype PodState = FullSpeed | CatNap | Running | LongNap | Initializing | WarmingUp | UnknownState
  datatype Endpoint = Up | Down | UnknownEndpoint
  datatype ServiceType = LcService | BeService | UnknownService

  /** The value of the cpuset label: the three sets the controller manages, or any other text. */
  datatype Region = LC | BE | MIX | Unmanaged(text: string)

  const STATE_LABEL := "swiftkube.io/state"
  const ENDPOINT_LABEL := "swiftkube.io/endpoint"
  const SERVICE_TYPE_LABEL := "swiftkube.io/service-type"
  const CPUSET_LABEL := "swiftkube.io/cpuset"
  const CPU_REQUEST_LABEL := "swiftkube.io/cpu-request"

  function GetPodState(labels: Labels): PodState {
    if STATE_LABEL !in labels then UnknownState
    else
      var s := labels[STATE_LABEL];
      if s == "Ready-FullSpeed" then FullSpeed
      else if s == "Ready-CatNap" then CatNap
      else if s == "Ready-Running" then Running
      else if s == "Ready-LongNap" then LongNap
      else if s == "Initializing" then Initializing
      else if s == "WarmingUp" then WarmingUp
      else UnknownState
  }

  function GetPodEndpointState(labels: Labels): Endpoint {
    if ENDPOINT_LABEL !in labels then UnknownEndpoint
    else if labels[ENDPOINT_LABEL] == "Down" then Down
    else if labels[ENDPOINT_LABEL] == "Up" then Up
    else UnknownEndpoint
  }

  function GetPodServiceType(labels: Labels): ServiceType {
    if SERVICE_TYPE_LABEL !in labels then UnknownService
    else if labels[SERVICE_TYPE_LABEL] == "be-service" then BeService
    else if labels[SERVICE_TYPE_LABEL] == "lc-service" then LcService
    else UnknownService
  }

  function RegionOf(text: string): Region {
    if text == "lc-cpuset" then LC
    else if text == "be-cpuset" then BE
    else if text == "mix-cpuset" then MIX
    else Unmanaged(text)
  }

  /** The cpuset label, or the service type's default; none when neither is known. */
  function GetRegion(labels: Labels, service: ServiceType): Option<Region> {
    if CPUSET_LABEL in labels then Some(RegionOf(labels[CPUSET_LABEL]))
    else match service
      case BeService => Some(BE)
      case LcService => Some(LC)
      case UnknownService => None
  }

  function DigitsValue(s: string): Option<nat> {
    if s == "" then Some(0)
    else
      var c := s[|s| - 1];
      var front := DigitsValue(s[..|s| - 1]);
      if front.Some? && '0' <= c <= '9' then Some(10 * front.value + (c as int - '0' as int)) else None
  }

  /** `strconv.ParseUint(s, 10, 64)`; no value stands for its error. */
  function ParseUint(s: string): Option<Word> {
    var v := DigitsValue(s);
    if s != "" && v.Some? && v.value < WORD then Some(v.value) else None
  }

  lemma {:induction false} DigitsOfDecimal(n: nat)
    ensures DigitsValue(Decimal(n)) == Some(n)
  {
    var s := Decimal(n);
    if n < 10 {
      assert s[..0] == "";
    } else {
      DigitsOfDecimal(n / 10);
      assert s[..|s| - 1] == Decimal(n / 10);
    }
  }

  /** A number is read back from its decimal text exactly when it fits 64 bits. */
  lemma ParseUintRoundTrip(n: nat)
    ensures ParseUint(Decimal(n)) == if n < 0x1_0000_0000_0000_0000 then Some(n) else None
  {
    DigitsOfDecimal(n);
  }

  predicate IsDigit(c: char) {
    c in "0123456789"
  }

  /** `k` times the digit zero. */
  function ZeroDigits(k: nat): (s: string)
    ensures |s| == k && forall i :: 0 <= i < k ==> s[i] == '0'
  {
    seq(k, _ => '0')
  }

  /** A text of digits only is the decimal text of what it is read as, after some zeros. */
  lemma {:induction false} DigitsAreDecimal(s: string) returns (zeros: nat)
    requires DigitsValue(s).Some? && s != ""
    ensures s == ZeroDigits(zeros) + Decimal(DigitsValue(s).value)
  {
    var front, c := s[..|s| - 1], s[|s| - 1];
    assert s == front + [c];
    var v := DigitsValue(front).value;
    assert Digit(c as int - '0' as int) == c;
    if front == "" {
      zeros := 0;
    } else if v == 0 {
      zeros := DigitsAreDecimal(front);
      assert Decimal(0) == "0";
      assert ZeroDigits(zeros) + "0" == ZeroDigits(zeros + 1);
      zeros := zeros + 1;
    } else {
      zeros := DigitsAreDecimal(front);
      assert Decimal(10 * v + (c as int - '0' as int)) == Decimal(v) + [c];
      assert ZeroDigits(zeros) + Decimal(v) + [c] == ZeroDigits(zeros) + (Decimal(v) + [c]);
    }
  }

  lemma {:induction false} ZerosAddNothing(k: nat)
    ensures DigitsValue(ZeroDigits(k)) == Some(0)
  {
    if k > 0 {
      assert ZeroDigits(k)[..k - 1] == ZeroDigits(k - 1);
      ZerosAddNothing(k - 1);
    }
  }

  lemma {:induction false} DigitsOfPadded(k: nat, n: nat)
    ensures DigitsValue(ZeroDigits(k) + Decimal(n)) == Some(n)
  {
    var s := ZeroDigits(k) + Decimal(n);
    if n < 10 {
      ZerosAddNothing(k);
      assert s[..|s| - 1] == ZeroDigits(k);
    } else {
      DigitsOfPadded(k, n / 10);
      assert s[..|s| - 1] == ZeroDigits(k) + Decimal(n / 10);
    }
  }

  lemma {:induction false} DigitsAreRead(s: string)
    ensures DigitsValue(s).Some? <==> forall i :: 0 <= i < |s| ==> IsDigit(s[i])
  {
    if s != "" {
      var front := s[..|s| - 1];
      DigitsAreRead(front);
      assert forall i :: 0 <= i < |front| ==> s[i] == front[i];
    }
  }

  /** What is read: the decimal texts of the numbers of 64 bits, with any leading zeros, and
      nothing else. */
  lemma ParseUintReads(s: string, n: nat)
    ensures ParseUint(s) == Some(n)
            <==> n < 0x1_0000_0000_0000_0000 && exists zeros: nat :: s == ZeroDigits(zeros) + Decimal(n)
  {
    if ParseUint(s) == Some(n) {
      var zeros := DigitsAreDecimal(s);
    }
    if zeros: nat :| s == ZeroDigits(zeros) + Decimal(n) {
      DigitsOfPadded(zeros, n);
    }
  }

  /** Millicores; the default also replaces an unreadable label. */
  function GetPodCPURequestOrDefault(labels: Labels, def: Word): Word {
    if CPU_REQUEST_LABEL !in labels then def
    else
      var v := ParseUint(labels[CPU_REQUEST_LABEL]);
      if v.Some? then v.value else def
  }

  predicate Says(labels: Labels, key: string, text: string) {
    key in labels && labels[key] == text
  }

  /** What a request label asks for: the number whose decimal text it is, if that has 64 bits. */
  lemma RequestLabelReads(labels: Labels, def: Word, n: nat)
    requires Says(labels, "swiftkube.io/cpu-request", Decimal(n))
    ensures GetPodCPURequestOrDefault(labels, def) == if n < 0x1_0000_0000_0000_0000 then n else def
  {
    ParseUintRoundTrip(n);
  }

  /** And the default when the label is missing, is empty, or is not made of digits. */
  lemma NoRequestLabel(labels: Labels, def: Word)
    requires var key := "swiftkube.io/cpu-request";
             key in labels ==> labels[key] == "" || exists i :: 0 <= i < |labels[key]| && !IsDigit(labels[key][i])
    ensures GetPodCPURequestOrDefault(labels, def) == def
  {
    if CPU_REQUEST_LABEL in labels {
      DigitsAreRead(labels[CPU_REQUEST_LABEL]);
    }
  }
}

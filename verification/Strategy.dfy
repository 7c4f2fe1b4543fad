/** Which pods are suspended or activated (pkg/controller/swiftdeployment/strategy.go:18-55). */
module Strategy {

  /** The pods `getPodInOrder` picks: the first `number`, or all of them when `number` is larger
      than the list, and also when it is not positive, since the countdown then never meets zero. */
  function InOrder<T>(pods: seq<T>, number: int): seq<T> {
    if 1 <= number <= |pods| then pods[..number] else pods
  }

  method GetPodInOrder<T>(pods: seq<T>, number: int) returns (ret: seq<T>)
    ensures ret == InOrder(pods, number)
    ensures ret <= pods
    ensures number >= 1 ==> |ret| == if number <= |pods| then number else |pods|
    ensures number < 1 ==> ret == pods
  {
    var residue := number;
    ret := [];
    for i := 0 to |pods|
      invariant ret == pods[..i] && residue == number - i
      invariant number >= 1 ==> residue >= 1
    {
      ret := ret + [pods[i]];
      residue := residue - 1;
      if residue == 0 {
        break;
      }
    }
  }
}

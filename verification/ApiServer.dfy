/** The pods in the API server, each with all its versions, and the update call both kinds of
    controller make. */
module ApiServer {
  import SwiftLabels
  import opened LabelProtocol

  /** A pod object as read from a cache: the version it was read at travels with it. */
  datatype Pod = Pod(name: string, node: string, version: nat, labels: SwiftLabels.Labels)

  type Histories = map<string, seq<SwiftLabels.Labels>>

  ghost predicate Populated(h: Histories) {
    forall k :: k in h ==> h[k] != []
  }

  function WriteOf(p: Pod): Write {
    Write(p.version, p.labels)
  }

  /** One `Update` call; a pod that does not exist is not created by it. */
  function Updated(h: Histories, p: Pod, d: Delivery): Histories {
    if p.name in h then h[p.name := Commit(h[p.name], WriteOf(p), d)] else h
  }

  /** `p` is a version of its pod that is or was stored. */
  predicate IsVersion(h: Histories, p: Pod) {
    p.name in h && p.version < |h[p.name]| && h[p.name][p.version] == p.labels
  }

  /** `p` is its pod's newest version. */
  predicate IsNewest(h: Histories, p: Pod) {
    IsVersion(h, p) && p.version == |h[p.name]| - 1
  }

  class Server {
    var history: Histories

    constructor ()
      ensures history == map[]
    {
      history := map[];
    }

    /** `Pods(ns).Update`. */
    method Update(p: Pod, d: Delivery) returns (ok: bool)
      modifies this
      ensures history == Updated(old(history), p, d)
      ensures ok <==> p.name in old(history) && p.version == |old(history)[p.name]| - 1 && d == Delivered
    {
      if p.name !in history || p.version != |history[p.name]| - 1 {
        return false;
      }
      if d != Dropped {
        history := history[p.name := history[p.name] + [p.labels]];
      }
      ok := d == Delivered;
    }
  }
}

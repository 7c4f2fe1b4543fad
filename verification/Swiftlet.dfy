/** The swiftlet of one node (pkg/swiftlet/controller.go:199-278). Its sync handler is cut in two
    at the `Update` call, because everybody else may write in between. */
module Swiftlet {
  import opened Options
  import opened SwiftLabels
  import opened LabelProtocol
  import opened ApiServer

  /** What a swiftlet has before it: the informer's cache, the write it is about to send, and the
      last process it ran on each pod. */
  datatype Desk = Desk(cache: map<string, Pod>, pending: Option<Pod>, latest: map<string, Process>)

  const EMPTY := Desk(map[], None, map[])

  ghost predicate Sound(h: Histories, d: Desk) {
    && (forall k :: k in d.cache ==> d.cache[k].name == k && IsVersion(h, d.cache[k]))
    && (d.pending.Some? ==>
          d.pending.value.name in d.cache && d.pending.value.version <= d.cache[d.pending.value.name].version)
    && d.latest.Keys <= d.cache.Keys
  }

  /** Pod `k` as the protocol sees it; a pod that was never delivered counts as seen at its first
      version, on which nothing has been done. */
  ghost function MachineOf(h: Histories, d: Desk, k: string): Machine
    requires k in h
  {
    Machine(
      h[k],
      if k in d.cache then d.cache[k].version else 0,
      if d.pending.Some? && d.pending.value.name == k then Some(WriteOf(d.pending.value)) else None,
      if k in d.latest then d.latest[k] else NoProcess)
  }

  // ----- what the swiftlet does, as functions

  function Observed(d: Desk, p: Pod): Desk {
    d.(cache := d.cache[p.name := p])
  }

  /** The handler up to its update call, if the one worker is free and the pod is on its node. */
  function Begun(d: Desk, node: string, key: string): Desk {
    if d.pending.Some? || key !in d.cache || d.cache[key].node != node then d
    else
      var pod := d.cache[key];
      if Reaction(pod.labels) == NoProcess then d
      else d.(latest := d.latest[key := Reaction(pod.labels)],
              pending := Some(pod.(labels := Published(pod.labels))))
  }

  function Finished(d: Desk): Desk {
    d.(pending := None)
  }

  /** What the update call leaves in the API server. */
  function Sent(h: Histories, d: Desk, delivery: Delivery): Histories {
    if d.pending.Some? then Updated(h, d.pending.value, delivery) else h
  }

  // ----- and as steps of the protocol

  /** A version that is delivered, the first one or one no older than the last, is a move of the
      pod's cache and touches no other pod. */
  lemma ObserveIsStep(h: Histories, d: Desk, p: Pod, k: string)
    requires Sound(h, d) && IsVersion(h, p) && k in h && h[k] != []
    requires p.name in d.cache ==> d.cache[p.name].version <= p.version
    ensures Sound(h, Observed(d, p))
    ensures MachineOf(h, Observed(d, p), k)
            == if k == p.name then Step(MachineOf(h, d, k), CacheMoves(p.version)) else MachineOf(h, d, k)
  {
  }

  lemma BeginIsStep(h: Histories, d: Desk, node: string, key: string, k: string)
    requires Sound(h, d) && k in h && h[k] != []
    ensures Sound(h, Begun(d, node, key))
    ensures MachineOf(h, Begun(d, node, key), k)
            == if k == key && d.pending.None? && key in d.cache && d.cache[key].node == node
               then Step(MachineOf(h, d, k), SwiftletStarts) else MachineOf(h, d, k)
  {
  }

  lemma FinishIsStep(h: Histories, d: Desk, delivery: Delivery, k: string)
    requires Sound(h, d) && k in h && h[k] != []
    ensures var after := Sent(h, d, delivery);
            after.Keys == h.Keys && Sound(after, Finished(d))
    ensures MachineOf(Sent(h, d, delivery), Finished(d), k)
            == if d.pending.Some? && d.pending.value.name == k
               then Step(MachineOf(h, d, k), SwiftletFinishes(delivery)) else MachineOf(h, d, k)
  {
  }

  // ----- the object

  class Controller {
    const api: Server
    const nodeName: string
    var cache: map<string, Pod>
    var pending: Option<Pod>
    var latest: map<string, Process>

    function View(): Desk
      reads this
    {
      Desk(cache, pending, latest)
    }

    ghost predicate Valid()
      reads this, api
    {
      Sound(api.history, View())
    }

    constructor (api: Server, nodeName: string)
      ensures Valid() && this.api == api && this.nodeName == nodeName
      ensures View() == EMPTY
    {
      this.api := api;
      this.nodeName := nodeName;
      cache, pending, latest := map[], None, map[];
    }

    /** The informer delivers a version of a pod: the first one, or one no older than the last. */
    method Observe(p: Pod)
      requires Valid() && IsVersion(api.history, p)
      requires p.name in cache ==> cache[p.name].version <= p.version
      modifies this`cache
      ensures Valid() && View() == Observed(old(View()), p)
    {
      cache := cache[p.name := p];
    }

    /** The handler up to the `Update` call: decide on the cached labels and run the process.
        The one worker is free when it starts. */
    method BeginSync(key: string)
      requires Valid() && pending == None
      modifies this`pending, this`latest
      ensures Valid() && View() == Begun(old(View()), nodeName, key)
    {
      if key !in cache {
        return;
      }
      var pod := cache[key];
      if pod.node != nodeName {
        return;
      }
      if pod.labels.state == NoState {
        return;
      }
      if pod.labels.state == Runnable {
        latest := latest[key := Activation];
        pending := Some(pod.(labels := pod.labels.(state := Running)));
      } else if pod.labels.state == Sleeping {
        if pod.labels.sleep == Done {
          return;
        }
        latest := latest[key := Suspension];
        pending := Some(pod.(labels := pod.labels.(sleep := Done)));
      }
    }

    /** The `Update` call and what it reports; on an error the key is queued again. */
    method FinishSync(d: Delivery) returns (ok: bool)
      requires Valid()
      modifies this`pending, api
      ensures Valid() && View() == Finished(old(View()))
      ensures api.history == Sent(old(api.history), old(View()), d)
      ensures ok <==>
              old(pending).None?
              || (d == Delivered && old(pending).value.version == |old(api.history)[old(pending).value.name]| - 1)
    {
      ok := true;
      if pending.Some? {
        ok := api.Update(pending.value, d);
        pending := None;
      }
    }
  }
}

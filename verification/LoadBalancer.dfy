/** The load balancer controller of one cluster as a transition system: its memory, the services
    it publishes to, and the account-wide tag table that reserves IPs across clusters.

    Every remote call's answer is part of the event, so `Step` is a function and a run is a
    sequence of events. */
module LoadBalancer {
  import opened Base
  import opened Tags

  /** namespace/name of a service. */
  type Key = string

  /** A service of type LoadBalancer: the pool its annotation selects, whether it has ports, and
      the IPs in its status. */
  datatype Service = Service(key: Key, dynamic: bool, ports: bool, ingress: seq<Id>)

  /** What the controller holds in memory and loses in a restart. */
  datatype Memory = Memory(
    staticIPs: seq<Id>,
    dynamicIPs: seq<Id>,
    ipAssignments: map<Id, Id>,
    serviceIPs: map<Key, Id>,
    manualModeNodes: set<Id>)

  /** `services` are the services of type LoadBalancer that the API server holds. A service that is
      deleted or changes its type leaves the map and takes its status with it. */
  datatype World = World(cluster: string, memory: Memory, services: map<Key, Service>, tags: seq<Tag>)

  /** The answers one service reconcile gets: the tag listings behind each availability probe (by
      pool position), the switch to manual NIC mode, the tagging, and the status write. */
  datatype Calls = Calls(probes: seq<Listing>, manual: bool, tagging: TagCalls, status: bool)

  /** A restart whose discovery failed has empty pools; `listed` says whether the services could be
      listed for recovery. */
  datatype Event =
    | Apply(key: Key, dynamic: bool, ports: bool)
    | Remove(key: Key)
    | Refresh(staticIPs: seq<Id>, dynamicIPs: seq<Id>)
    | Release(key: Key, untag: StripCalls)
    | Reconcile(svc: Service, node: Id, calls: Calls)
    | Failover(ip: Id, healthy: set<Id>, node: Id, manual: bool)
    | Restart(staticIPs: seq<Id>, dynamicIPs: seq<Id>, listed: bool)
    | Others(tags: seq<Tag>)

  const EMPTY := Memory([], [], map[], map[], {})

  // ----- The controller's functions -----

  predicate IsPoolIP(m: Memory, ip: Id) {
    ip in m.staticIPs || ip in m.dynamicIPs
  }

  /** The pool IP that a reconcile meets first in a service status. */
  function FirstPoolIP(m: Memory, ingress: seq<Id>): (r: Option<Id>)
    ensures r.Some? ==> r.value in ingress && IsPoolIP(m, r.value)
    ensures r.Some? ==> exists i :: 0 <= i < |ingress| && ingress[i] == r.value && forall j :: 0 <= j < i ==> !IsPoolIP(m, ingress[j])
    ensures r.None? ==> forall ip :: ip in ingress ==> !IsPoolIP(m, ip)
  {
    if ingress == [] then None
    else if IsPoolIP(m, ingress[0]) then Some(ingress[0])
    else
      var r := FirstPoolIP(m, ingress[1..]);
      assert forall i :: 0 <= i < |ingress| - 1 ==> ingress[1..][i] == ingress[i + 1];
      r
  }

  /** Recovery keeps the last one. */
  function LastPoolIP(m: Memory, ingress: seq<Id>): (r: Option<Id>)
    ensures r.Some? ==> r.value in ingress && IsPoolIP(m, r.value)
    ensures r.Some? ==> exists i :: 0 <= i < |ingress| && ingress[i] == r.value
                                    && forall j :: i < j < |ingress| ==> !IsPoolIP(m, ingress[j])
    ensures r.None? ==> forall ip :: ip in ingress ==> !IsPoolIP(m, ip)
  {
    if ingress == [] then None
    else if IsPoolIP(m, ingress[|ingress| - 1]) then Some(ingress[|ingress| - 1])
    else LastPoolIP(m, ingress[..|ingress| - 1])
  }

  function Pool(m: Memory, dynamic: bool): seq<Id> {
    if dynamic then m.dynamicIPs else m.staticIPs
  }

  function Probe(probes: seq<Listing>, i: nat): Listing {
    if i < |probes| then probes[i] else Answered
  }

  /** Allocation takes a pool position whose IP is not assigned here and, as far as the probe's
      listing shows, carries no `service:*` tag. An unreadable listing shows no tags. */
  predicate Free(m: Memory, tags: seq<Tag>, pool: seq<Id>, probes: seq<Listing>, i: nat)
    requires i < |pool|
  {
    && pool[i] !in m.ipAssignments
    && match Probe(probes, i)
       case Failed => false
       case Garbled => true
       case Answered => pool[i] !in Reserved(tags)
  }

  /** The IP at the first free position from `i` on, or "". */
  function Allocate(m: Memory, tags: seq<Tag>, pool: seq<Id>, probes: seq<Listing>, i: nat): (ip: Id)
    requires i <= |pool|
    ensures ip != "" ==> exists j :: i <= j < |pool| && pool[j] == ip && Free(m, tags, pool, probes, j)
    decreases |pool| - i
  {
    if i == |pool| then ""
    else if Free(m, tags, pool, probes, i) then pool[i]
    else Allocate(m, tags, pool, probes, i + 1)
  }

  predicate FirstFree(m: Memory, tags: seq<Tag>, pool: seq<Id>, probes: seq<Listing>, i: nat, j: nat) {
    i <= j < |pool| && Free(m, tags, pool, probes, j) && forall k :: i <= k < j ==> !Free(m, tags, pool, probes, k)
  }

  /** Allocation is first fit, and finds nothing only if nothing is free. */
  lemma {:induction false} AllocateFirst(m: Memory, tags: seq<Tag>, pool: seq<Id>, probes: seq<Listing>, i: nat)
    requires i <= |pool|
    ensures var ip := Allocate(m, tags, pool, probes, i);
            if exists j :: i <= j < |pool| && Free(m, tags, pool, probes, j)
            then exists j :: i <= j < |pool| && FirstFree(m, tags, pool, probes, i, j) && pool[j] == ip
            else ip == ""
    decreases |pool| - i
  {
    if i < |pool| {
      if Free(m, tags, pool, probes, i) {
        assert FirstFree(m, tags, pool, probes, i, i);
      } else {
        AllocateFirst(m, tags, pool, probes, i + 1);
        if j :| i + 1 <= j < |pool| && FirstFree(m, tags, pool, probes, i + 1, j)
                && pool[j] == Allocate(m, tags, pool, probes, i + 1) {
          assert FirstFree(m, tags, pool, probes, i, j);
        }
      }
    }
  }

  function Dashed(key: Key): (s: string)
    ensures |s| == |key| && forall i :: 0 <= i < |key| ==> s[i] == if key[i] == '/' then '-' else key[i]
  {
    if key == "" then ""
    else Dashed(key[..|key| - 1]) + [if key[|key| - 1] == '/' then '-' else key[|key| - 1]]
  }

  function ServiceTag(key: Key): string {
    SERVICE_PREFIX + Dashed(key)
  }

  function DesiredTags(cluster: string, key: Key): (names: set<string>)
    ensures forall n :: n in names ==> Managed(Ccm, n)
  {
    {CLUSTER_PREFIX + cluster, ServiceTag(key), MANAGED_BY_CCM}
  }

  function TagIP(w: World, ip: Id, key: Key, calls: TagCalls): World {
    w.(tags := Retag(w.tags, ip, DesiredTags(w.cluster, key), calls))
  }

  function Record(m: Memory, key: Key, ip: Id, node: Id): Memory {
    m.(ipAssignments := m.ipAssignments[ip := node], serviceIPs := m.serviceIPs[key := ip])
  }

  /** A status write fails when the service is gone. */
  function Publish(w: World, key: Key, ip: Id, ok: bool): World {
    if ok && key in w.services then w.(services := w.services[key := w.services[key].(ingress := [ip])]) else w
  }

  /** The IP this reconcile would allocate, "" if it allocates none. */
  function Allocated(w: World, svc: Service, calls: Calls): Id {
    if FirstPoolIP(w.memory, svc.ingress).Some? || svc.key in w.memory.serviceIPs then ""
    else Allocate(w.memory, w.tags, Pool(w.memory, svc.dynamic), calls.probes, 0)
  }

  /** Whether ensureNodeManualMode succeeds; a node already recorded needs no call. */
  predicate ManualMode(m: Memory, node: Id, ok: bool) {
    node in m.manualModeNodes || ok
  }

  /** The service already shows pool IP `ip`: adopt it if nobody is assigned it, and retag it. */
  function Adopt(w: World, svc: Service, ip: Id, node: Id, calls: TagCalls): World {
    var recover := ip !in w.memory.ipAssignments && node != "";
    var w1 := if recover then w.(memory := Record(w.memory, svc.key, ip, node)) else w;
    if ip in w1.memory.ipAssignments && svc.ports then TagIP(w1, ip, svc.key, calls) else w1
  }

  /** A newly allocated IP is recorded on the node, tagged and published. */
  function Assign(w: World, key: Key, ip: Id, node: Id, calls: Calls): World {
    if node == "" then Publish(w, key, ip, calls.status)
    else if !ManualMode(w.memory, node, calls.manual) then w
    else
      var m := Record(w.memory, key, ip, node).(manualModeNodes := w.memory.manualModeNodes + {node});
      Publish(TagIP(w.(memory := m), ip, key, calls.tagging), key, ip, calls.status)
  }

  /** `svc` is the copy of the service read at the start of the sync and `node` the CloudSigma UUID
      of the first healthy node, "" if it has no usable provider ID. */
  function ReconcileService(w: World, svc: Service, node: Id, calls: Calls): World {
    match FirstPoolIP(w.memory, svc.ingress)
    case Some(ip) => Adopt(w, svc, ip, node, calls.tagging)
    case None =>
      if svc.key in w.memory.serviceIPs then Publish(w, svc.key, w.memory.serviceIPs[svc.key], calls.status)
      else
        var ip := Allocated(w, svc, calls);
        if ip == "" then w else Assign(w, svc.key, ip, node, calls)
  }

  function ReleaseService(w: World, key: Key, untag: StripCalls): World {
    if key !in w.memory.serviceIPs then w else
      var ip := w.memory.serviceIPs[key];
      w.(tags := Strip(Ccm, w.tags, ip, {}, untag),
         memory := w.memory.(serviceIPs := w.memory.serviceIPs - {key}, ipAssignments := w.memory.ipAssignments - {ip}))
  }

  function FailoverIP(m: Memory, ip: Id, healthy: set<Id>, node: Id, ok: bool): Memory {
    if ip in m.ipAssignments && m.ipAssignments[ip] !in healthy && node != "" && ManualMode(m, node, ok)
    then m.(ipAssignments := m.ipAssignments[ip := node], manualModeNodes := m.manualModeNodes + {node})
    else m
  }

  function Recovered(services: map<Key, Service>, m: Memory): map<Key, Id> {
    map k | k in services && LastPoolIP(m, services[k].ingress).Some? :: LastPoolIP(m, services[k].ingress).value
  }

  function Step(w: World, e: Event): World {
    match e
    case Apply(key, dynamic, ports) =>
      w.(services := w.services[key := Service(key, dynamic, ports, if key in w.services then w.services[key].ingress else [])])
    case Remove(key) => w.(services := w.services - {key})
    case Refresh(s, d) => w.(memory := w.memory.(staticIPs := s, dynamicIPs := d))
    case Release(key, untag) => ReleaseService(w, key, untag)
    case Reconcile(svc, node, calls) => ReconcileService(w, svc, node, calls)
    case Failover(ip, healthy, node, ok) => w.(memory := FailoverIP(w.memory, ip, healthy, node, ok))
    case Restart(s, d, listed) =>
      var m := EMPTY.(staticIPs := s, dynamicIPs := d);
      w.(memory := if listed then m.(serviceIPs := Recovered(w.services, m)) else m)
    case Others(tags) => w.(tags := tags)
  }

  function Run(w: World, es: seq<Event>): World {
    if es == [] then w else Step(Run(w, es[..|es| - 1]), es[|es| - 1])
  }

  lemma RunSnoc(w: World, es: seq<Event>, e: Event)
    ensures Run(w, es + [e]) == Step(Run(w, es), e)
  {
    assert (es + [e])[..|es|] == es;
  }

  lemma {:induction false} RunAppend(w: World, a: seq<Event>, b: seq<Event>)
    ensures Run(w, a + b) == Run(Run(w, a), b)
  {
    if b == [] {
      assert a + b == a;
    } else {
      var n := |b| - 1;
      RunAppend(w, a, b[..n]);
      assert (a + b)[..|a + b| - 1] == a + b[..n];
    }
  }

  // ----- Steady state: no IP is ever given to two services -----

  /** Different services hold different IPs, and every held IP is assigned to a node. */
  ghost predicate Sound(m: Memory) {
    && Injective(m.serviceIPs)
    && forall k :: k in m.serviceIPs ==> m.serviceIPs[k] in m.ipAssignments
  }

  lemma SoundReconcile(w: World, svc: Service, node: Id, calls: Calls)
    requires Sound(w.memory)
    ensures Sound(ReconcileService(w, svc, node, calls).memory)
  {
    var found, ip := FirstPoolIP(w.memory, svc.ingress), Allocated(w, svc, calls);
    if found.Some? {
      SoundRecord(w.memory, svc.key, found.value, node);
    } else if svc.key !in w.memory.serviceIPs && ip != "" {
      SoundRecord(w.memory, svc.key, ip, node);
    }
  }

  /** Recording an IP that nobody is assigned gives it to nobody else. */
  lemma SoundRecord(m: Memory, key: Key, ip: Id, node: Id)
    requires Sound(m)
    ensures ip !in m.ipAssignments ==> Sound(Record(m, key, ip, node))
  {
  }

  lemma SoundStep(w: World, e: Event)
    requires Sound(w.memory) && !e.Restart?
    ensures Sound(Step(w, e).memory)
  {
    if e.Reconcile? { SoundReconcile(w, e.svc, e.node, e.calls); }
  }

  /** From the empty memory, whatever the statuses say, however stale the service copies are,
      whatever other clusters do to the tags and whichever calls fail or answer garbage: the
      service map stays injective and inside the assignments. */
  lemma {:induction false} NoDoubleAllocation(w: World, es: seq<Event>)
    requires Sound(w.memory)
    requires forall i :: 0 <= i < |es| ==> !es[i].Restart?
    ensures Sound(Run(w, es).memory)
  {
    if es != [] {
      var front := es[..|es| - 1];
      assert forall i :: 0 <= i < |front| ==> front[i] == es[i];
      NoDoubleAllocation(w, front);
      SoundStep(Run(w, front), es[|es| - 1]);
    }
  }

  /** Releasing one service never drops another's IP or assignment. */
  lemma ReleaseKeepsOthers(w: World, key: Key, other: Key, untag: StripCalls)
    requires Sound(w.memory) && other in w.memory.serviceIPs && other != key
    ensures var m, n := w.memory, ReleaseService(w, key, untag).memory;
            && other in n.serviceIPs && n.serviceIPs[other] == m.serviceIPs[other]
            && m.serviceIPs[other] in n.ipAssignments
            && n.ipAssignments[m.serviceIPs[other]] == m.ipAssignments[m.serviceIPs[other]]
  {
  }
}

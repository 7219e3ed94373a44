/** The load balancer controller as it runs: one object whose methods update its maps in place,
    against the API server and the tag API. Every method is tied to the transition system, so
    what is proved about runs holds of it. */
module Controller {
  import opened Base
  import opened Tags
  import opened TagStore
  import opened LoadBalancer
  import opened Reservation
  import opened Steadiness

  /** The services of type LoadBalancer in the API server. */
  class ApiServer {
    var services: map<Key, Service>

    constructor (services: map<Key, Service>)
      ensures this.services == services
    {
      this.services := services;
    }

    method UpdateStatus(key: Key, ip: Id, ok: bool)
      modifies this
      ensures services == if ok && key in old(services) then old(services)[key := old(services)[key].(ingress := [ip])]
                          else old(services)
    {
      if ok && key in services { services := services[key := services[key].(ingress := [ip])]; }
    }
  }

  /** A node as the controller sees it. */
  datatype Node = Node(providerID: string, ready: bool)

  const PROVIDER_PREFIX := "cloudsigma://"

  /** The CloudSigma UUID in a provider ID, "" if there is none. */
  function NodeUUID(providerID: string): (uuid: Id)
    ensures PROVIDER_PREFIX <= providerID ==> providerID == PROVIDER_PREFIX + uuid
    ensures !(PROVIDER_PREFIX <= providerID) ==> uuid == ""
  {
    if PROVIDER_PREFIX <= providerID then providerID[|PROVIDER_PREFIX|..] else ""
  }

  /** The IPs with (or without) a subscription, in the order in which they are listed. */
  function IPsWhere(objects: seq<(Id, bool)>, subscribed: bool): (ips: seq<Id>)
    ensures forall ip :: ip in ips <==> (ip, subscribed) in objects
  {
    if objects == [] then [] else
      var last := objects[|objects| - 1];
      IPsWhere(objects[..|objects| - 1], subscribed) + if last.1 == subscribed then [last.0] else []
  }

  /** Listing goes object by object, so the pools keep the listing's order and repetitions. */
  lemma {:induction false} IPsWhereAppend(a: seq<(Id, bool)>, b: seq<(Id, bool)>, subscribed: bool)
    ensures IPsWhere(a + b, subscribed) == IPsWhere(a, subscribed) + IPsWhere(b, subscribed)
  {
    if b == [] {
      assert a + b == a;
    } else {
      var n := |b| - 1;
      IPsWhereAppend(a, b[..n], subscribed);
      assert (a + b)[..|a + b| - 1] == a + b[..n];
    }
  }

  /** The answers one sync gets. A release that is not mentioned fails to untag. */
  datatype SyncCalls = SyncCalls(untags: map<Key, StripCalls>, reconciles: seq<Calls>, switches: set<Id>)

  class LoadBalancerController {
    const clusterName: string
    const api: ApiServer
    const tagApi: TagApi

    var staticIPs: seq<Id>
    var dynamicIPs: seq<Id>
    var ipAssignments: map<Id, Id>
    var serviceIPs: map<Key, Id>
    var manualModeNodes: set<Id>

    ghost function State(): World
      reads this, api, tagApi
    {
      World(clusterName, Memory(staticIPs, dynamicIPs, ipAssignments, serviceIPs, manualModeNodes),
            api.services, tagApi.tags)
    }

    constructor (clusterName: string, api: ApiServer, tagApi: TagApi)
      ensures this.clusterName == clusterName && this.api == api && this.tagApi == tagApi
      ensures State() == World(clusterName, EMPTY, api.services, tagApi.tags)
    {
      this.clusterName, this.api, this.tagApi := clusterName, api, tagApi;
      staticIPs, dynamicIPs, ipAssignments, serviceIPs, manualModeNodes := [], [], map[], map[], {};
    }

    /** discoverOwnedIPs: `objects` lists the account's IPs and whether each has a subscription. */
    method DiscoverOwnedIPs(objects: seq<(Id, bool)>)
      modifies this
      ensures staticIPs == IPsWhere(objects, true) && dynamicIPs == IPsWhere(objects, false)
      ensures State() == Step(old(State()), Refresh(staticIPs, dynamicIPs))
    {
      staticIPs, dynamicIPs := [], [];
      for i := 0 to |objects|
        invariant staticIPs == IPsWhere(objects[..i], true) && dynamicIPs == IPsWhere(objects[..i], false)
        invariant State() == Step(old(State()), Refresh(staticIPs, dynamicIPs))
      {
        assert objects[..i + 1][..i] == objects[..i];
        if objects[i].1 {
          staticIPs := staticIPs + [objects[i].0];
        } else {
          dynamicIPs := dynamicIPs + [objects[i].0];
        }
      }
      assert objects[..|objects|] == objects;
    }

    /** recoverServiceState, right after a start: `keys` is the order in which services are listed, if
        they can be. */
    method RecoverServiceState(keys: seq<Key>, listed: bool)
      requires serviceIPs == map[] && ipAssignments == map[] && manualModeNodes == {}
      requires forall k :: k in keys <==> k in api.services
      modifies this`serviceIPs
      ensures State() == Step(old(State()), Restart(staticIPs, dynamicIPs, listed))
    {
      if !listed { return; }
      ghost var m := EMPTY.(staticIPs := staticIPs, dynamicIPs := dynamicIPs);
      ghost var goal := Recovered(api.services, m);
      for i := 0 to |keys|
        invariant forall k :: k in serviceIPs <==> k in keys[..i] && k in goal
        invariant forall k :: k in serviceIPs ==> serviceIPs[k] == goal[k]
      {
        assert forall k :: k in keys[..i + 1] <==> k in keys[..i] || k == keys[i];
        assert keys[i] in goal <==> LastPoolIP(m, api.services[keys[i]].ingress).Some?;
        RecoverService(keys[i], m);
      }
      assert keys[..|keys|] == keys;
      assert serviceIPs == goal;
    }

    method RecoverService(key: Key, ghost m: Memory)
      requires key in api.services
      requires m == EMPTY.(staticIPs := staticIPs, dynamicIPs := dynamicIPs)
      requires key in serviceIPs ==> LastPoolIP(m, api.services[key].ingress) == Some(serviceIPs[key])
      modifies this`serviceIPs
      ensures serviceIPs == match LastPoolIP(m, api.services[key].ingress)
                            case Some(ip) => old(serviceIPs)[key := ip]
                            case None => old(serviceIPs)
    {
      var ingress := api.services[key].ingress;
      for i := 0 to |ingress|
        invariant serviceIPs == match LastPoolIP(m, ingress[..i])
                                case Some(ip) => old(serviceIPs)[key := ip]
                                case None => old(serviceIPs)
      {
        assert ingress[..i + 1][..i] == ingress[..i];
        if ingress[i] in staticIPs || ingress[i] in dynamicIPs {
          serviceIPs := serviceIPs[key := ingress[i]];
        }
      }
      assert ingress[..|ingress|] == ingress;
    }

    /** allocateIP: the first pool position that is free, or "". */
    method AllocateIP(dynamic: bool, probes: seq<Listing>) returns (ip: Id)
      ensures var w := State(); ip == Allocate(w.memory, w.tags, Pool(w.memory, dynamic), probes, 0)
    {
      ghost var m := State().memory;
      var pool := if dynamic then dynamicIPs else staticIPs;
      for i := 0 to |pool|
        invariant Allocate(m, tagApi.tags, pool, probes, 0) == Allocate(m, tagApi.tags, pool, probes, i)
      {
        if pool[i] !in ipAssignments {
          var ok, objects := tagApi.List(Probe(probes, i));
          if ok {
            var tagged := TaggedServiceIPs(objects);
            if pool[i] !in tagged { return pool[i]; }
          }
        }
      }
      return "";
    }

    /** reconcileService. */
    method ReconcileOne(svc: Service, node: Id, calls: Calls)
      modifies this, api, tagApi
      ensures State() == Step(old(State()), Reconcile(svc, node, calls))
      ensures old(manualModeNodes) <= manualModeNodes
    {
      var found := ShownPoolIP(svc.ingress);
      if found.Some? {
        AdoptIP(svc, found.value, node, calls.tagging);
        return;
      }
      if svc.key in serviceIPs {
        api.UpdateStatus(svc.key, serviceIPs[svc.key], calls.status);
        return;
      }
      var ip := AllocateIP(svc.dynamic, calls.probes);
      if ip != "" { AssignIP(svc.key, ip, node, calls); }
    }

    /** The loop over the IPs in a service status: it stops at the first pool IP. */
    method ShownPoolIP(ingress: seq<Id>) returns (found: Option<Id>)
      ensures found == FirstPoolIP(State().memory, ingress)
    {
      ghost var m := State().memory;
      for i := 0 to |ingress|
        invariant FirstPoolIP(m, ingress) == FirstPoolIP(m, ingress[i..])
      {
        assert ingress[i..][1..] == ingress[i + 1..];
        if ingress[i] in staticIPs || ingress[i] in dynamicIPs { return Some(ingress[i]); }
      }
      return None;
    }

    /** The branch for a service that already shows a pool IP. */
    method AdoptIP(svc: Service, ip: Id, node: Id, calls: TagCalls)
      modifies this`ipAssignments, this`serviceIPs, tagApi
      ensures State() == Adopt(old(State()), svc, ip, node, calls)
    {
      if ip !in ipAssignments && node != "" {
        ipAssignments, serviceIPs := ipAssignments[ip := node], serviceIPs[svc.key := ip];
      }
      if ip in ipAssignments && svc.ports {
        RetagResource(tagApi, ip, DesiredTags(clusterName, svc.key), calls);
      }
    }

    /** The branch for a newly allocated IP. */
    method AssignIP(key: Key, ip: Id, node: Id, calls: Calls)
      modifies this`ipAssignments, this`serviceIPs, this`manualModeNodes, api, tagApi
      ensures State() == Assign(old(State()), key, ip, node, calls)
    {
      if node != "" {
        if node !in manualModeNodes && !calls.manual { return; }
        manualModeNodes := manualModeNodes + {node};
        ipAssignments, serviceIPs := ipAssignments[ip := node], serviceIPs[key := ip];
        RetagResource(tagApi, ip, DesiredTags(clusterName, key), calls.tagging);
      }
      api.UpdateStatus(key, ip, calls.status);
    }

    /** The release loop over serviceIPs. */
    method ReleaseDeleted(current: set<Key>, calls: SyncCalls) returns (ghost es: seq<Event>)
      modifies this`serviceIPs, this`ipAssignments, tagApi
      ensures State() == Run(old(State()), es)
      ensures forall i :: 0 <= i < |es| ==> es[i].Release? && es[i].key !in current
      ensures serviceIPs == map k | k in old(serviceIPs) && k in current :: old(serviceIPs)[k]
      ensures forall k :: k in old(serviceIPs) && k !in current ==> exists i :: 0 <= i < |es| && Frees(es[i], calls, k)
    {
      ghost var w := State();
      es := [];
      var todo := serviceIPs.Keys - current;
      while todo != {}
        invariant State() == Run(w, es)
        invariant forall i :: 0 <= i < |es| ==> es[i].Release? && es[i].key !in current
        invariant serviceIPs == map k | k in w.memory.serviceIPs && (k in current || k in todo) :: w.memory.serviceIPs[k]
        invariant todo <= serviceIPs.Keys && todo !! current
        invariant forall k :: k in w.memory.serviceIPs && k !in current && k !in todo ==>
                    exists i :: 0 <= i < |es| && Frees(es[i], calls, k)
        decreases todo
      {
        ghost var before := es;
        var key :| key in todo;
        var untag := if key in calls.untags then calls.untags[key] else StripCalls(Failed, {});
        ReleaseOne(key, untag);
        todo := todo - {key};
        RunSnoc(w, es, Release(key, untag));
        es := es + [Release(key, untag)];
        assert forall i :: 0 <= i < |before| ==> es[i] == before[i];
        assert es[|before|] == Release(key, untag);
      }
    }

    /** One iteration of that loop. */
    method ReleaseOne(key: Key, untag: StripCalls)
      requires key in serviceIPs
      modifies this`serviceIPs, this`ipAssignments, tagApi
      ensures State() == Step(old(State()), Release(key, untag)) && serviceIPs == old(serviceIPs) - {key}
    {
      var ip := serviceIPs[key];
      StripResource(tagApi, Ccm, ip, {}, untag);
      serviceIPs, ipAssignments := serviceIPs - {key}, ipAssignments - {ip};
    }

    /** cleanupAllIPTags: the loop over the recorded IPs, on a graceful shutdown. */
    method CleanupAllIPTags(untags: map<Id, StripCalls>) returns (ghost order: seq<Id>)
      modifies tagApi
      ensures forall ip :: ip in order <==> ip in serviceIPs.Values
      ensures State() == old(State()).(tags := UntagAll(old(tagApi.tags), order, untags))
    {
      order := [];
      var todo := serviceIPs.Values;
      while todo != {}
        invariant todo <= serviceIPs.Values
        invariant forall ip :: ip in order <==> ip in serviceIPs.Values && ip !in todo
        invariant State() == old(State()).(tags := UntagAll(old(tagApi.tags), order, untags))
        decreases todo
      {
        var ip :| ip in todo;
        StripResource(tagApi, Ccm, ip, {}, UntagCalls(untags, ip));
        todo := todo - {ip};
        assert (order + [ip])[..|order|] == order;
        order := order + [ip];
      }
    }

    /** checkIPFailover. `nodes` are the UUIDs of the healthy nodes, first one first; `order` is the
        order in which the copied assignments are ranged over. */
    method CheckIPFailover(nodes: seq<Id>, switches: set<Id>) returns (ghost order: seq<Id>)
      requires nodes != []
      modifies this`ipAssignments, this`manualModeNodes
      ensures State() == Run(old(State()), Failovers(order, Usable(nodes), nodes[0], switches))
      ensures forall ip :: ip in old(ipAssignments) ==> ip in order
      ensures FailedOver(old(State()).memory, State().memory, order, Usable(nodes), nodes[0], switches)
    {
      ghost var w := State();
      order := MoveIPs(ipAssignments, Usable(nodes), nodes[0], switches);
      FailoverLaw(w.memory, order, Usable(nodes), nodes[0], switches);
      FailoversRun(w, order, Usable(nodes), nodes[0], switches);
    }

    /** The loop over a copy of the assignments. */
    method MoveIPs(assignments: map<Id, Id>, healthy: set<Id>, node: Id, switches: set<Id>) returns (ghost order: seq<Id>)
      requires assignments == ipAssignments
      modifies this`ipAssignments, this`manualModeNodes
      ensures State() == old(State()).(memory := FailoverAll(old(State()).memory, order, healthy, node, switches))
      ensures forall ip :: ip in assignments ==> ip in order
    {
      ghost var w := State();
      order := [];
      var todo := assignments.Keys;
      while todo != {}
        invariant todo <= assignments.Keys == ipAssignments.Keys
        invariant forall ip :: ip in assignments ==> ip in todo || ip in order
        invariant forall ip :: ip in todo ==> ipAssignments[ip] == assignments[ip]
        invariant State() == w.(memory := FailoverAll(w.memory, order, healthy, node, switches))
        decreases todo
      {
        var ip :| ip in todo;
        FailoverOne(ip, assignments[ip], healthy, node, ip in switches);
        todo := todo - {ip};
        assert (order + [ip])[..|order|] == order;
        order := order + [ip];
      }
    }

    /** One iteration of that loop. */
    method FailoverOne(ip: Id, current: Id, healthy: set<Id>, node: Id, ok: bool)
      requires ip in ipAssignments && ipAssignments[ip] == current
      modifies this`ipAssignments, this`manualModeNodes
      ensures State() == Step(old(State()), Failover(ip, healthy, node, ok))
      ensures ipAssignments == old(ipAssignments)[ip := ipAssignments[ip]]
    {
      if current in healthy || node == "" { return; }
      if node !in manualModeNodes && !ok { return; }
      manualModeNodes := manualModeNodes + {node};
      ipAssignments := ipAssignments[ip := node];
    }

    /** The loop over the listed services. */
    method ReconcileAll(services: seq<Service>, uuids: seq<Id>, calls: SyncCalls) returns (ghost es: seq<Event>)
      requires uuids != []
      modifies this, api, tagApi
      ensures State() == Run(old(State()), es)
      ensures InListOrder(es, services, uuids[0]) && forall i :: 0 <= i < |services| ==> Reconciles(es[i], services, calls, i)
      ensures old(manualModeNodes) <= manualModeNodes
    {
      ghost var w := State();
      es := [];
      for i := 0 to |services|
        invariant State() == Run(w, es)
        invariant |es| == i
        invariant forall j :: 0 <= j < i ==> Reconciles(es[j], services, calls, j) && es[j].node == uuids[0]
        invariant old(manualModeNodes) <= manualModeNodes
      {
        var answers := if i < |calls.reconciles| then calls.reconciles[i] else POLL;
        ReconcileOne(services[i], uuids[0], answers);
        RunSnoc(w, es, Reconcile(services[i], uuids[0], answers));
        es := es + [Reconcile(services[i], uuids[0], answers)];
      }
    }

    /** syncLoadBalancers on the listed services and nodes: a run of releases for services that are
        not listed, reconciles of listed ones, and failovers. */
    method SyncLoadBalancers(services: seq<Service>, nodes: seq<Node>, calls: SyncCalls) returns (ghost es: seq<Event>)
      modifies this, api, tagApi
      ensures State() == Run(old(State()), es)
      ensures SyncRun(old(State()), es, services, HealthyUUIDs(nodes))
      ensures HealthyUUIDs(nodes) == [] ==> es == []
      ensures HealthyUUIDs(nodes) != [] ==> VisitsAll(old(State()), es, services, calls)
      ensures HealthyUUIDs(nodes) != [] && HealthyUUIDs(nodes)[0] != "" && HealthyUUIDs(nodes)[0] in old(manualModeNodes) ==>
                forall ip :: ip in ipAssignments ==> ipAssignments[ip] in HealthyUUIDs(nodes)
    {
      ghost var w := State();
      es := [];
      var uuids := HealthyNodes(nodes);
      if uuids == [] { return; }
      var current := set s | s in services :: s.key;
      ghost var releases := ReleaseDeleted(current, calls);
      ghost var reconciles := ReconcileAll(services, uuids, calls);
      ghost var order := CheckIPFailover(uuids, calls.switches);
      ghost var moves := Failovers(order, Usable(uuids), uuids[0], calls.switches);
      es := releases + reconciles + moves;
      SyncFacts(w, services, uuids, releases, reconciles, moves);
      VisitsAllParts(w, services, calls, releases, reconciles, moves);
    }
  }

  lemma SyncFacts(w: World, services: seq<Service>, uuids: seq<Id>,
                  releases: seq<Event>, reconciles: seq<Event>, moves: seq<Event>)
    requires uuids != [] && InListOrder(reconciles, services, uuids[0])
    requires forall i :: 0 <= i < |releases| ==> releases[i].Release? && forall s :: s in services ==> s.key != releases[i].key
    requires forall i :: 0 <= i < |moves| ==> moves[i].Failover?
    ensures var es := releases + reconciles + moves;
            SyncRun(w, es, services, uuids) && Run(w, es) == Run(Run(Run(w, releases), reconciles), moves)
  {
    var es := releases + reconciles + moves;
    RunAppend(w, releases, reconciles);
    RunAppend(w, releases + reconciles, moves);
    if Sound(w.memory) { NoDoubleAllocation(w, es); }
    if uuids[0] != "" && Lists(services, w.services) { SyncSteady(w, services, uuids[0], releases, reconciles, moves); }
  }

  /** What a sync guarantees whatever happens, and that it is a steady run when its listing is
      current and the first healthy node has a UUID. */
  ghost predicate SyncRun(w: World, es: seq<Event>, services: seq<Service>, uuids: seq<Id>) {
    && (forall i :: 0 <= i < |es| ==> SyncEvent(es[i], services, uuids))
    && (Sound(w.memory) ==> Sound(Run(w, es).memory))
    && (uuids != [] && uuids[0] != "" && Lists(services, w.services) ==> SteadyRun(w, es))
  }

  /** Every listed service is reconciled, and every recorded one that is not listed is released. */
  ghost predicate VisitsAll(w: World, es: seq<Event>, services: seq<Service>, calls: SyncCalls) {
    && (forall i :: 0 <= i < |services| ==> Visited(es, services, calls, i))
    && (forall k :: k in w.memory.serviceIPs && (forall s :: s in services ==> s.key != k) ==>
          exists j :: 0 <= j < |es| && Frees(es[j], calls, k))
  }

  ghost predicate Visited(es: seq<Event>, services: seq<Service>, calls: SyncCalls, i: nat)
    requires i < |services|
  {
    exists j :: 0 <= j < |es| && Reconciles(es[j], services, calls, i)
  }

  /** The event reconciles listed service `i`, with the answers it got. */
  predicate Reconciles(e: Event, services: seq<Service>, calls: SyncCalls, i: nat)
    requires i < |services|
  {
    e.Reconcile? && e.svc == services[i] && (i < |calls.reconciles| ==> e.calls == calls.reconciles[i])
  }

  /** It releases service `k`, with the answers it got. */
  predicate Frees(e: Event, calls: SyncCalls, k: Key) {
    e.Release? && e.key == k && (k in calls.untags ==> e.untag == calls.untags[k])
  }

  lemma VisitsAllParts(w: World, services: seq<Service>, calls: SyncCalls, releases: seq<Event>, reconciles: seq<Event>, moves: seq<Event>)
    requires |reconciles| == |services| && forall i :: 0 <= i < |services| ==> Reconciles(reconciles[i], services, calls, i)
    requires forall k :: k in w.memory.serviceIPs && (forall s :: s in services ==> s.key != k) ==>
               exists j :: 0 <= j < |releases| && Frees(releases[j], calls, k)
    ensures VisitsAll(w, releases + reconciles + moves, services, calls)
  {
    var es := releases + reconciles + moves;
    forall i | 0 <= i < |services| ensures Visited(es, services, calls, i) {
      assert es[|releases| + i] == reconciles[i];
    }
    forall k | k in w.memory.serviceIPs && (forall s :: s in services ==> s.key != k)
      ensures exists j :: 0 <= j < |es| && Frees(es[j], calls, k)
    {
      var j :| 0 <= j < |releases| && Frees(releases[j], calls, k);
      assert es[j] == releases[j];
    }
  }

  /** What a sync does: `uuids` are those of the healthy nodes. */
  predicate SyncEvent(e: Event, services: seq<Service>, uuids: seq<Id>) {
    match e
    case Release(key, _) => forall s :: s in services ==> s.key != key
    case Reconcile(svc, node, _) => svc in services && uuids != [] && node == uuids[0]
    case Failover(_, _, _, _) => true
    case _ => false
  }

  /** The UUIDs that count as healthy. */
  function Usable(nodes: seq<Id>): set<Id> {
    set u | u in nodes && u != ""
  }

  /** getTaggedServiceIPs. */
  method TaggedServiceIPs(objects: seq<Tag>) returns (tagged: set<Id>)
    ensures tagged == Reserved(objects)
  {
    tagged := {};
    for i := 0 to |objects|
      invariant tagged == Reserved(objects[..i])
    {
      if SERVICE_PREFIX <= objects[i].name {
        tagged := tagged + set r | r in objects[i].resources;
      }
      ReservedSnoc(objects, i);
    }
    assert objects[..|objects|] == objects;
  }

  lemma ReservedSnoc(tags: seq<Tag>, i: nat)
    requires i < |tags|
    ensures Reserved(tags[..i + 1]) == Reserved(tags[..i]) +
            if SERVICE_PREFIX <= tags[i].name then set r | r in tags[i].resources else {}
  {
    var front, all := tags[..i], tags[..i + 1];
    assert all == front + [tags[i]];
    forall r | r in Reserved(front) ensures r in Reserved(all) {
      var j :| 0 <= j < |front| && SERVICE_PREFIX <= front[j].name && r in front[j].resources;
      assert all[j] == front[j];
    }
  }

  /** The UUIDs of the ready nodes, in node order. */
  function HealthyUUIDs(nodes: seq<Node>): (uuids: seq<Id>)
    ensures forall u :: u in uuids <==> exists n :: n in nodes && n.ready && NodeUUID(n.providerID) == u
    ensures |uuids| <= |nodes|
  {
    if nodes == [] then [] else
      var node := nodes[|nodes| - 1];
      HealthyUUIDs(nodes[..|nodes| - 1]) + if node.ready then [NodeUUID(node.providerID)] else []
  }

  /** The first of them, which takes all new and moved IPs, is that of the first ready node. */
  lemma {:induction false} FirstHealthy(nodes: seq<Node>, i: nat)
    requires i < |nodes| && nodes[i].ready && forall j :: 0 <= j < i ==> !nodes[j].ready
    ensures HealthyUUIDs(nodes) != [] && HealthyUUIDs(nodes)[0] == NodeUUID(nodes[i].providerID)
  {
    var n := |nodes| - 1;
    if i < n {
      FirstHealthy(nodes[..n], i);
    } else {
      NoneHealthy(nodes[..n]);
    }
  }

  lemma {:induction false} NoneHealthy(nodes: seq<Node>)
    requires forall j :: 0 <= j < |nodes| ==> !nodes[j].ready
    ensures HealthyUUIDs(nodes) == []
  {
    if nodes != [] { NoneHealthy(nodes[..|nodes| - 1]); }
  }

  /** getHealthyNodes, reduced to the UUIDs the controller uses. */
  method HealthyNodes(nodes: seq<Node>) returns (uuids: seq<Id>)
    ensures uuids == HealthyUUIDs(nodes)
  {
    uuids := [];
    for i := 0 to |nodes|
      invariant uuids == HealthyUUIDs(nodes[..i])
    {
      assert nodes[..i + 1][..i] == nodes[..i];
      if nodes[i].ready { uuids := uuids + [NodeUUID(nodes[i].providerID)]; }
    }
    assert nodes[..|nodes|] == nodes;
  }
}

/** What the tags buy: safety after a restart, and exclusivity between clusters. */
module Reservation {
  import opened Base
  import opened Tags
  import opened LoadBalancer

  /** The reconcile works on the current copy of the service and its probes read the tag list. */
  predicate Faithful(w: World, e: Event) {
    e.Reconcile? ==>
      && e.svc.key in w.services && e.svc == w.services[e.svc.key]
      && forall i :: 0 <= i < |e.calls.probes| ==> !e.calls.probes[i].Garbled?
  }

  /** An allocated IP is neither assigned here nor reserved by anyone. */
  lemma AllocatedIsFresh(w: World, svc: Service, calls: Calls)
    requires Faithful(w, Reconcile(svc, "", calls))
    ensures var ip := Allocated(w, svc, calls);
            ip != "" ==> ip !in w.memory.ipAssignments && ip !in Reserved(w.tags)
  {
  }

  lemma TagIPFrame(w: World, ip: Id, key: Key, calls: TagCalls)
    ensures Reserved(TagIP(w, ip, key, calls).tags) - {ip} == Reserved(w.tags) - {ip}
  {
    RetagFrame(w.tags, ip, DesiredTags(w.cluster, key), calls);
    ReservedFrame(w.tags, TagIP(w, ip, key, calls).tags, ip);
  }

  lemma ReleaseFrame(w: World, key: Key, untag: StripCalls)
    requires key in w.memory.serviceIPs
    ensures var ip := w.memory.serviceIPs[key];
            Reserved(ReleaseService(w, key, untag).tags) - {ip} == Reserved(w.tags) - {ip}
  {
    var ip := w.memory.serviceIPs[key];
    StripFrame(Ccm, w.tags, ip, {}, untag);
    ReservedFrame(w.tags, ReleaseService(w, key, untag).tags, ip);
  }

  // ----- Restart safety -----

  /** A recovered service holds its IP before the controller has assigned it to a node again. */
  predicate Pending(w: World, key: Key) {
    key in w.memory.serviceIPs && w.memory.serviceIPs[key] !in w.memory.ipAssignments
  }

  /** Held IPs are distinct; one that is not assigned yet is protected by its `service:*` tag and
      appears in no other service's status. */
  ghost predicate Recovering(w: World) {
    && Injective(w.memory.serviceIPs)
    && (forall k :: Pending(w, k) ==> w.memory.serviceIPs[k] in Reserved(w.tags))
    && (forall k, j :: Pending(w, k) && j in w.services && j != k ==> w.memory.serviceIPs[k] !in w.services[j].ingress)
  }

  /** What must hold of the surviving state: statuses name distinct IPs, each still tagged. */
  ghost predicate Survives(w: World) {
    && (forall j, k :: j in w.services && k in w.services && j != k ==>
          forall ip :: ip in w.services[j].ingress ==> ip !in w.services[k].ingress)
    && (forall k :: k in w.services ==> forall ip :: ip in w.services[k].ingress ==> ip in Reserved(w.tags))
  }

  lemma RestartRecovers(w: World, s: seq<Id>, d: seq<Id>, listed: bool)
    requires Survives(w)
    ensures Recovering(Step(w, Restart(s, d, listed)))
  {
    var m := EMPTY.(staticIPs := s, dynamicIPs := d);
    forall k | k in Recovered(w.services, m) ensures Recovered(w.services, m)[k] in w.services[k].ingress {
    }
  }

  /** Other clusters may retag as they like as long as they leave this cluster's pending IPs reserved. */
  ghost predicate Spares(w: World, e: Event) {
    e.Others? ==> forall k :: Pending(w, k) ==> w.memory.serviceIPs[k] in Reserved(e.tags)
  }

  /** No other service holds `ip`. */
  predicate Unshared(w: World, key: Key, ip: Id) {
    forall k :: k in w.memory.serviceIPs && k != key ==> w.memory.serviceIPs[k] != ip
  }

  lemma TagKeepsRecovering(w: World, ip: Id, key: Key, calls: TagCalls)
    requires Recovering(w) && ip in w.memory.ipAssignments
    ensures Recovering(TagIP(w, ip, key, calls))
  {
    var out := TagIP(w, ip, key, calls);
    TagIPFrame(w, ip, key, calls);
    forall k | Pending(out, k) ensures out.memory.serviceIPs[k] in Reserved(out.tags) {
      assert Pending(w, k);
      assert w.memory.serviceIPs[k] in Reserved(w.tags) - {ip};
    }
  }

  lemma RecordKeepsRecovering(w: World, key: Key, ip: Id, node: Id, manual: set<Id>)
    requires Recovering(w) && Unshared(w, key, ip)
    ensures Recovering(w.(memory := Record(w.memory, key, ip, node).(manualModeNodes := manual)))
  {
    var out := w.(memory := Record(w.memory, key, ip, node).(manualModeNodes := manual));
    assert forall k :: Pending(out, k) ==> Pending(w, k) && k != key;
  }

  lemma PublishKeepsRecovering(w: World, key: Key, ip: Id, ok: bool)
    requires Recovering(w) && Unshared(w, key, ip)
    ensures Recovering(Publish(w, key, ip, ok))
  {
    var out := Publish(w, key, ip, ok);
    assert forall k :: Pending(out, k) ==> Pending(w, k);
  }

  lemma RecoveringAdopt(w: World, svc: Service, ip: Id, node: Id, calls: TagCalls)
    requires Recovering(w) && svc.key in w.services && svc == w.services[svc.key] && ip in svc.ingress
    ensures Recovering(Adopt(w, svc, ip, node, calls))
  {
    var w1 := w;
    if ip !in w.memory.ipAssignments && node != "" {
      assert forall k :: k in w.memory.serviceIPs && w.memory.serviceIPs[k] == ip ==> Pending(w, k);
      RecordKeepsRecovering(w, svc.key, ip, node, w.memory.manualModeNodes);
      w1 := w.(memory := Record(w.memory, svc.key, ip, node));
    }
    if ip in w1.memory.ipAssignments { TagKeepsRecovering(w1, ip, svc.key, calls); }
  }

  lemma RecoveringAssign(w: World, key: Key, ip: Id, node: Id, calls: Calls)
    requires Recovering(w) && Unshared(w, key, ip)
    ensures Recovering(Assign(w, key, ip, node, calls))
  {
    PublishKeepsRecovering(w, key, ip, calls.status);
    var m := Record(w.memory, key, ip, node).(manualModeNodes := w.memory.manualModeNodes + {node});
    RecordKeepsRecovering(w, key, ip, node, w.memory.manualModeNodes + {node});
    TagKeepsRecovering(w.(memory := m), ip, key, calls.tagging);
    PublishKeepsRecovering(TagIP(w.(memory := m), ip, key, calls.tagging), key, ip, calls.status);
  }

  lemma RecoveringReconcile(w: World, svc: Service, node: Id, calls: Calls)
    requires Recovering(w) && Faithful(w, Reconcile(svc, node, calls))
    ensures Recovering(ReconcileService(w, svc, node, calls))
  {
    var m := w.memory;
    var found := FirstPoolIP(m, svc.ingress);
    if found.Some? {
      RecoveringAdopt(w, svc, found.value, node, calls.tagging);
    } else if svc.key in m.serviceIPs {
      PublishKeepsRecovering(w, svc.key, m.serviceIPs[svc.key], calls.status);
    } else {
      var ip := Allocated(w, svc, calls);
      AllocatedIsFresh(w, svc, calls);
      if ip != "" {
        assert forall k :: k in m.serviceIPs && m.serviceIPs[k] == ip ==> Pending(w, k);
        RecoveringAssign(w, svc.key, ip, node, calls);
      }
    }
  }

  lemma RecoveringRelease(w: World, key: Key, untag: StripCalls)
    requires Recovering(w)
    ensures Recovering(ReleaseService(w, key, untag))
  {
    if key in w.memory.serviceIPs {
      var ip := w.memory.serviceIPs[key];
      var out := ReleaseService(w, key, untag);
      ReleaseFrame(w, key, untag);
      forall k | Pending(out, k) ensures out.memory.serviceIPs[k] in Reserved(out.tags) {
        assert Pending(w, k);
        assert out.memory.serviceIPs[k] in Reserved(w.tags) - {ip};
      }
    }
  }

  lemma RecoveringStep(w: World, e: Event)
    requires Recovering(w) && Faithful(w, e) && Spares(w, e) && !e.Restart?
    ensures Recovering(Step(w, e))
  {
    if e.Reconcile? {
      RecoveringReconcile(w, e.svc, e.node, e.calls);
    } else if e.Release? {
      RecoveringRelease(w, e.key, e.untag);
    } else {
      var out := Step(w, e);
      assert forall k :: Pending(out, k) ==> Pending(w, k);
    }
  }

  /** Every event of the run is faithful and spares this cluster, in the state it meets. */
  ghost predicate FaithfulRun(w: World, es: seq<Event>) {
    forall i :: 0 <= i < |es| ==>
      Faithful(Run(w, es[..i]), es[i]) && Spares(Run(w, es[..i]), es[i]) && !es[i].Restart?
  }

  lemma {:induction false} RecoveringRun(w: World, es: seq<Event>)
    requires Recovering(w) && FaithfulRun(w, es)
    ensures Recovering(Run(w, es))
  {
    if es != [] {
      var n := |es| - 1;
      assert forall i :: 0 <= i < n ==> es[..n][..i] == es[..i];
      RecoveringRun(w, es[..n]);
      RecoveringStep(Run(w, es[..n]), es[n]);
    }
  }

  /** Restart safety: after losing all memory, no later run gives one IP to two services, even if
      new services come before the recovered ones and tagging, switching and status writes fail. */
  lemma RestartSafe(w: World, s: seq<Id>, d: seq<Id>, listed: bool, es: seq<Event>)
    requires Survives(w) && FaithfulRun(Step(w, Restart(s, d, listed)), es)
    ensures Injective(Run(Step(w, Restart(s, d, listed)), es).memory.serviceIPs)
  {
    RestartRecovers(w, s, d, listed);
    RecoveringRun(Step(w, Restart(s, d, listed)), es);
  }

  // ----- When exactly a restart is safe -----

  lemma FreshKey(keys: set<Key>) returns (key: Key)
    ensures key !in keys
  {
    key := "";
    var left := keys;
    while left != {}
      invariant left <= keys && forall k :: k in keys && k !in left ==> |k| < |key|
      decreases left
    {
      var k :| k in left;
      left := left - {k};
      if |k| >= |key| { key := k + "a"; }
    }
  }

  /** After a restart with one pool IP, a service `key` appears and is reconciled. */
  function Newcomer(key: Key, calls: Calls): seq<Event> {
    [Apply(key, false, true), Reconcile(Service(key, false, true, []), "n", calls)]
  }

  /** A new service takes a published IP whenever its probe does not show a reservation: there is
      none, or the list could not be read. */
  lemma NewcomerTakes(w: World, k: Key, ip: Id, key: Key, calls: Calls)
    requires k in w.services && ip in w.services[k].ingress && ip != "" && key !in w.services
    requires calls.manual && !Probe(calls.probes, 0).Failed?
    requires Probe(calls.probes, 0).Garbled? || ip !in Reserved(w.tags)
    ensures !Injective(Run(Step(w, Restart([ip], [], true)), Newcomer(key, calls)).memory.serviceIPs)
  {
    var w1 := Step(w, Restart([ip], [], true));
    assert k in w1.memory.serviceIPs && w1.memory.serviceIPs[k] == ip;
    assert key !in w1.memory.serviceIPs;
    var svc := Service(key, false, true, []);
    var w2 := Step(w1, Apply(key, false, true));
    assert Free(w2.memory, w2.tags, Pool(w2.memory, false), calls.probes, 0);
    assert Allocated(w2, svc, calls) == ip;
    var w3 := Step(w2, Reconcile(svc, "n", calls));
    assert w3.memory.serviceIPs[key] == w3.memory.serviceIPs[k] == ip;
    RunTwo(w1, Apply(key, false, true), Reconcile(svc, "n", calls));
  }

  lemma RunTwo(w: World, e: Event, f: Event)
    ensures Run(w, [e, f][..0]) == w && Run(w, [e, f][..1]) == Step(w, e) && Run(w, [e, f]) == Step(Step(w, e), f)
  {
    assert [e, f] == [e] + [f] && [] + [e] == [e] && [e, f][..1] == [e];
    RunSnoc(w, [], e);
    RunSnoc(w, [e], f);
  }

  /** This run after this restart, if it is faithful, gives no IP to two services. */
  ghost predicate SafeAfter(w: World, s: seq<Id>, d: seq<Id>, listed: bool, es: seq<Event>) {
    var w1 := Step(w, Restart(s, d, listed));
    FaithfulRun(w1, es) ==> Injective(Run(w1, es).memory.serviceIPs)
  }

  /** Statuses name IPs. */
  predicate StatusesNameIPs(w: World) {
    forall k :: k in w.services ==> "" !in w.services[k].ingress
  }

  /** A published IP without a tag can be taken by the next new service. */
  lemma UntaggedUnsafe(w: World, k: Key, ip: Id) returns (es: seq<Event>)
    requires k in w.services && ip in w.services[k].ingress && ip != "" && ip !in Reserved(w.tags)
    ensures !SafeAfter(w, [ip], [], true, es)
  {
    var key := FreshKey(w.services.Keys);
    var calls := Calls([], true, TagCalls(false, StripCalls(Failed, {}), []), true);
    es := Newcomer(key, calls);
    NewcomerTakes(w, k, ip, key, calls);
    RunTwo(Step(w, Restart([ip], [], true)), es[0], es[1]);
  }

  /** An IP that two statuses show is recovered for both services. */
  lemma SharedUnsafe(w: World, j: Key, k: Key, ip: Id)
    requires j in w.services && k in w.services && j != k && ip in w.services[j].ingress && ip in w.services[k].ingress
    ensures !SafeAfter(w, [ip], [], true, [])
  {
    var m := Step(w, Restart([ip], [], true)).memory;
    assert j in m.serviceIPs && k in m.serviceIPs && m.serviceIPs[j] == m.serviceIPs[k] == ip;
  }

  /** The exact condition for restart safety, over all pools, runs and failures: the statuses name
      distinct IPs, each of them tagged. */
  lemma RestartSafeIff(w: World)
    requires StatusesNameIPs(w)
    ensures (forall s, d, listed, es :: SafeAfter(w, s, d, listed, es)) <==> Survives(w)
  {
    if Survives(w) {
      forall s, d, listed, es ensures SafeAfter(w, s, d, listed, es) {
        if FaithfulRun(Step(w, Restart(s, d, listed)), es) { RestartSafe(w, s, d, listed, es); }
      }
    } else if k, ip :| k in w.services && ip in w.services[k].ingress && ip !in Reserved(w.tags) {
      var es := UntaggedUnsafe(w, k, ip);
    } else {
      var j, k, ip :| j in w.services && k in w.services && j != k && ip in w.services[j].ingress && ip in w.services[k].ingress;
      SharedUnsafe(w, j, k, ip);
    }
  }

  /** A service without an IP meets a usable node, and the first free position of its pool is free only
      because its probe could not be read: another service holds the IP, unassigned as yet. */
  ghost predicate Doubles(w: World, svc: Service, node: Id, calls: Calls) {
    var m := w.memory;
    var pool := Pool(m, svc.dynamic);
    && FirstPoolIP(m, svc.ingress).None? && svc.key !in m.serviceIPs && node != "" && ManualMode(m, node, calls.manual)
    && exists j :: 0 <= j < |pool| && FirstFree(m, w.tags, pool, calls.probes, 0, j) && Probe(calls.probes, j).Garbled?
                   && pool[j] != "" && !Unshared(w, svc.key, pool[j])
  }

  /** An IP that is picked although another service holds it: that service waits to be assigned, so
      its IP is tagged, and only an unreadable probe hides the tag. */
  lemma PickedIsHidden(w: World, svc: Service, calls: Calls)
    requires Recovering(w) && Allocated(w, svc, calls) != ""
    ensures var pool := Pool(w.memory, svc.dynamic);
            exists j :: 0 <= j < |pool| && FirstFree(w.memory, w.tags, pool, calls.probes, 0, j) && pool[j] == Allocated(w, svc, calls)
                        && (!Unshared(w, svc.key, pool[j]) ==> Probe(calls.probes, j).Garbled?)
  {
    var m, pool, ip := w.memory, Pool(w.memory, svc.dynamic), Allocated(w, svc, calls);
    AllocateFirst(m, w.tags, pool, calls.probes, 0);
    var j :| 0 <= j < |pool| && FirstFree(m, w.tags, pool, calls.probes, 0, j) && pool[j] == ip;
    if k :| k in m.serviceIPs && k != svc.key && m.serviceIPs[k] == ip {
      assert Pending(w, k);
    }
  }

  /** What unreadable tag lists do to a recovering controller, without any premise on the probes: the
      service map stays injective exactly when no such position comes first. */
  lemma GarbledIff(w: World, svc: Service, node: Id, calls: Calls)
    requires Recovering(w) && svc.key in w.services && svc == w.services[svc.key]
    ensures Injective(ReconcileService(w, svc, node, calls).memory.serviceIPs) <==> !Doubles(w, svc, node, calls)
  {
    var m, ip, found := w.memory, Allocated(w, svc, calls), FirstPoolIP(w.memory, svc.ingress);
    if found.Some? {
      RecoveringAdopt(w, svc, found.value, node, calls.tagging);
    } else if svc.key !in m.serviceIPs {
      DoublesPicks(w, svc, node, calls);
      if ip != "" {
        if Unshared(w, svc.key, ip) {
          RecordKeepsRecovering(w, svc.key, ip, node, m.manualModeNodes);
        } else if Doubles(w, svc, node, calls) {
          var k :| k in m.serviceIPs && k != svc.key && m.serviceIPs[k] == ip;
          var after := ReconcileService(w, svc, node, calls).memory.serviceIPs;
          assert after[k] == after[svc.key] == ip;
        }
      }
    }
  }

  lemma DoublesPicks(w: World, svc: Service, node: Id, calls: Calls)
    requires Recovering(w) && FirstPoolIP(w.memory, svc.ingress).None? && svc.key !in w.memory.serviceIPs
    ensures Doubles(w, svc, node, calls) <==>
            (node != "" && ManualMode(w.memory, node, calls.manual)
             && Allocated(w, svc, calls) != "" && !Unshared(w, svc.key, Allocated(w, svc, calls)))
  {
    var m, pool := w.memory, Pool(w.memory, svc.dynamic);
    AllocateFirst(m, w.tags, pool, calls.probes, 0);
    if Allocated(w, svc, calls) != "" { PickedIsHidden(w, svc, calls); }
  }

  // ----- A graceful shutdown gives the reservations up -----

  /** The loop of the shutdown: untag every IP in `order`. */
  function UntagAll(tags: seq<Tag>, order: seq<Id>, untags: map<Id, StripCalls>): seq<Tag> {
    if order == [] then tags else
      var ip := order[|order| - 1];
      Strip(Ccm, UntagAll(tags, order[..|order| - 1], untags), ip, {}, UntagCalls(untags, ip))
  }

  /** An untagging that is not mentioned fails. */
  function UntagCalls(untags: map<Id, StripCalls>, ip: Id): StripCalls {
    if ip in untags then untags[ip] else StripCalls(Failed, {})
  }

  lemma {:induction false} UntagAllFrees(tags: seq<Tag>, order: seq<Id>, untags: map<Id, StripCalls>)
    requires forall ip :: ip in order ==> ip in untags && Clean(untags[ip])
    ensures Reserved(UntagAll(tags, order, untags)) == Reserved(tags) - set ip | ip in order
  {
    if order != [] {
      var front, ip := order[..|order| - 1], order[|order| - 1];
      UntagAllFrees(tags, front, untags);
      var before := UntagAll(tags, front, untags);
      var out := Strip(Ccm, before, ip, {}, UntagCalls(untags, ip));
      StripFrame(Ccm, before, ip, {}, UntagCalls(untags, ip));
      ReservedFrame(before, out, ip);
      StripFrees(before, ip, UntagCalls(untags, ip));
      assert Reserved(out) == Reserved(out) - {ip};
      assert order == front + [ip];
    }
  }

  /** A complete shutdown of an orderly cluster leaves a state that a restart can build on if and
      only if no status shows an IP that the controller had recorded. */
  lemma ShutdownIff(w: World, order: seq<Id>, untags: map<Id, StripCalls>)
    requires Orderly(w) && forall ip :: ip in order <==> ip in w.memory.serviceIPs.Values
    requires forall ip :: ip in order ==> ip in untags && Clean(untags[ip])
    ensures Survives(w.(tags := UntagAll(w.tags, order, untags))) <==>
            forall k :: k in w.services ==> forall ip :: ip in w.services[k].ingress ==> ip !in w.memory.serviceIPs.Values
  {
    UntagAllFrees(w.tags, order, untags);
    forall k, ip | k in w.services && ip in w.services[k].ingress ensures ip in Reserved(w.tags) {
      assert ip in Claims(w);
    }
  }

  /** So a restart after a complete shutdown is safe, over all runs, exactly then. */
  lemma SafeAfterShutdownIff(w: World, order: seq<Id>, untags: map<Id, StripCalls>)
    requires Orderly(w) && StatusesNameIPs(w) && forall ip :: ip in order <==> ip in w.memory.serviceIPs.Values
    requires forall ip :: ip in order ==> ip in untags && Clean(untags[ip])
    ensures var out := w.(tags := UntagAll(w.tags, order, untags));
            (forall s, d, listed, es :: SafeAfter(out, s, d, listed, es)) <==>
            forall k :: k in w.services ==> forall ip :: ip in w.services[k].ingress ==> ip !in w.memory.serviceIPs.Values
  {
    ShutdownIff(w, order, untags);
    RestartSafeIff(w.(tags := UntagAll(w.tags, order, untags)));
  }

  // ----- Exclusivity between clusters -----

  /** Every IP a cluster has a hold on: assigned, recorded, or written in a service status. */
  function Claims(w: World): set<Id> {
    w.memory.ipAssignments.Keys + w.memory.serviceIPs.Values +
    set k, ip | k in w.services && ip in w.services[k].ingress :: ip
  }

  /** Within one cluster, every claim is reserved by a tag and no IP belongs to two services. */
  ghost predicate Orderly(w: World) {
    && Claims(w) <= Reserved(w.tags)
    && Injective(w.memory.serviceIPs)
    && (forall k, j :: k in w.memory.serviceIPs && j in w.services && j != k ==>
          w.memory.serviceIPs[k] !in w.services[j].ingress)
    && (forall j, k :: j in w.services && k in w.services && j != k ==>
          forall ip :: ip in w.services[j].ingress ==> ip !in w.services[k].ingress)
  }

  /** The ensure call for this service's own tag goes through. */
  predicate Reserves(calls: TagCalls, key: Key) {
    calls.token && exists i :: 0 <= i < |calls.adds| && calls.adds[i].name == ServiceTag(key)
                               && calls.adds[i].listing.Answered? && calls.adds[i].write
  }

  /** Tagging succeeds, and a release happens only for a service that is gone. */
  predicate Cooperates(w: World, e: Event) {
    && Faithful(w, e)
    && (e.Reconcile? ==> Reserves(e.calls.tagging, e.svc.key))
    && (e.Release? ==> e.key !in w.services)
    && !e.Others?
  }

  /** An IP would be published without being recorded: the first healthy node has no CloudSigma
      UUID, the service needs a new IP, and its status write succeeds. */
  predicate PublishesUnrecorded(w: World, e: Event) {
    e.Reconcile? && e.node == "" && e.calls.status && Allocated(w, e.svc, e.calls) != ""
  }

  lemma TagIPReserves(w: World, ip: Id, key: Key, calls: TagCalls)
    requires Reserves(calls, key)
    ensures Reserved(TagIP(w, ip, key, calls).tags) == Reserved(w.tags) + {ip}
  {
    TagIPFrame(w, ip, key, calls);
    var i :| 0 <= i < |calls.adds| && calls.adds[i].name == ServiceTag(key)
             && calls.adds[i].listing.Answered? && calls.adds[i].write;
    EnsureReserves(Strip(Ccm, w.tags, ip, DesiredTags(w.cluster, key), calls.strip), calls.adds, ip, i);
    forall x ensures x in Reserved(TagIP(w, ip, key, calls).tags) <==> x in Reserved(w.tags) + {ip} {
      if x != ip {
        assert x in Reserved(TagIP(w, ip, key, calls).tags) <==> x in Reserved(TagIP(w, ip, key, calls).tags) - {ip};
        assert x in Reserved(w.tags) <==> x in Reserved(w.tags) - {ip};
      }
    }
  }

  /** What a step does to claims and reservations: it only claims IPs nobody had reserved, and it
      only frees IPs it had claimed itself. */
  ghost predicate Considerate(w: World, out: World) {
    && (forall ip :: ip in Claims(out) ==> ip in Claims(w) || ip !in Reserved(w.tags))
    && (forall ip :: ip in Reserved(w.tags) && ip !in Claims(w) ==> ip in Reserved(out.tags))
  }

  lemma TagKeepsOrderly(w: World, ip: Id, key: Key, calls: TagCalls)
    requires Orderly(w) && Reserves(calls, key)
    ensures Orderly(TagIP(w, ip, key, calls)) && Reserved(TagIP(w, ip, key, calls).tags) == Reserved(w.tags) + {ip}
    ensures Claims(TagIP(w, ip, key, calls)) == Claims(w)
  {
    TagIPReserves(w, ip, key, calls);
  }

  /** `ip` is held by nobody but `key`, be it in memory or in a status. */
  ghost predicate Exclusively(w: World, key: Key, ip: Id) {
    Unshared(w, key, ip) && forall j :: j in w.services && j != key ==> ip !in w.services[j].ingress
  }

  lemma RecordKeepsOrderly(w: World, key: Key, ip: Id, node: Id, manual: set<Id>)
    requires Orderly(w) && Exclusively(w, key, ip) && ip in Reserved(w.tags)
    ensures var out := w.(memory := Record(w.memory, key, ip, node).(manualModeNodes := manual));
            Orderly(out) && Claims(out) <= Claims(w) + {ip}
  {
  }

  lemma PublishKeepsOrderly(w: World, key: Key, ip: Id, ok: bool)
    requires Orderly(w) && Exclusively(w, key, ip) && ip in Reserved(w.tags)
    ensures var out := Publish(w, key, ip, ok); Orderly(out) && Claims(out) <= Claims(w) + {ip}
  {
    var out := Publish(w, key, ip, ok);
    forall x | x in Claims(out) ensures x in Claims(w) + {ip} {
      if k :| k in out.services && x in out.services[k].ingress && x != ip {
        assert k in w.services && x in w.services[k].ingress;
      }
    }
  }

  lemma OrderlyAdopt(w: World, svc: Service, ip: Id, node: Id, calls: TagCalls)
    requires Orderly(w) && Reserves(calls, svc.key)
    requires svc.key in w.services && svc == w.services[svc.key] && ip in svc.ingress
    ensures var out := Adopt(w, svc, ip, node, calls); Orderly(out) && Considerate(w, out)
  {
    assert ip in Claims(w);
    var w1 := w;
    if ip !in w.memory.ipAssignments && node != "" {
      RecordKeepsOrderly(w, svc.key, ip, node, w.memory.manualModeNodes);
      w1 := w.(memory := Record(w.memory, svc.key, ip, node));
    }
    TagKeepsOrderly(w1, ip, svc.key, calls);
  }

  lemma OrderlyNewIP(w: World, key: Key, ip: Id, node: Id, calls: Calls)
    requires Orderly(w) && Reserves(calls.tagging, key) && ip !in Reserved(w.tags)
    ensures var m := Record(w.memory, key, ip, node).(manualModeNodes := w.memory.manualModeNodes + {node});
            var out := Publish(TagIP(w.(memory := m), ip, key, calls.tagging), key, ip, calls.status);
            Orderly(out) && Considerate(w, out)
  {
    assert ip !in Claims(w);
    var manual := w.memory.manualModeNodes + {node};
    var tagged := TagIP(w, ip, key, calls.tagging);
    TagKeepsOrderly(w, ip, key, calls.tagging);
    RecordKeepsOrderly(tagged, key, ip, node, manual);
    PublishKeepsOrderly(tagged.(memory := Record(w.memory, key, ip, node).(manualModeNodes := manual)), key, ip, calls.status);
  }

  lemma OrderlyAssign(w: World, key: Key, ip: Id, node: Id, calls: Calls)
    requires Orderly(w) && Reserves(calls.tagging, key) && ip !in Reserved(w.tags)
    requires node == "" ==> !calls.status
    ensures var out := Assign(w, key, ip, node, calls); Orderly(out) && Considerate(w, out)
  {
    OrderlyNewIP(w, key, ip, node, calls);
  }

  lemma OrderlyRepublish(w: World, key: Key, ok: bool)
    requires Orderly(w) && key in w.memory.serviceIPs
    ensures var out := Publish(w, key, w.memory.serviceIPs[key], ok); Orderly(out) && Considerate(w, out)
  {
    assert w.memory.serviceIPs[key] in Claims(w);
    PublishKeepsOrderly(w, key, w.memory.serviceIPs[key], ok);
  }

  lemma OrderlyReconcile(w: World, svc: Service, node: Id, calls: Calls)
    requires Orderly(w) && Cooperates(w, Reconcile(svc, node, calls))
    requires !PublishesUnrecorded(w, Reconcile(svc, node, calls))
    ensures var out := ReconcileService(w, svc, node, calls); Orderly(out) && Considerate(w, out)
  {
    var found := FirstPoolIP(w.memory, svc.ingress);
    if found.Some? {
      OrderlyAdopt(w, svc, found.value, node, calls.tagging);
    } else if svc.key in w.memory.serviceIPs {
      OrderlyRepublish(w, svc.key, calls.status);
    } else {
      AllocatedIsFresh(w, svc, calls);
      var ip := Allocated(w, svc, calls);
      if ip != "" { OrderlyAssign(w, svc.key, ip, node, calls); }
    }
  }

  lemma OrderlyRelease(w: World, key: Key, untag: StripCalls)
    requires Orderly(w) && key !in w.services
    ensures var out := ReleaseService(w, key, untag); Orderly(out) && Considerate(w, out)
  {
    if key in w.memory.serviceIPs {
      var ip := w.memory.serviceIPs[key];
      var out := ReleaseService(w, key, untag);
      ReleaseFrame(w, key, untag);
      assert ip !in Claims(out);
      forall x | x in Reserved(w.tags) && x != ip ensures x in Reserved(out.tags) {
        assert x in Reserved(w.tags) - {ip};
      }
    }
  }

  lemma OrderlyRestart(w: World, s: seq<Id>, d: seq<Id>, listed: bool)
    requires Orderly(w)
    ensures var out := Step(w, Restart(s, d, listed)); Orderly(out) && Considerate(w, out)
  {
    RecoveredShows(w.services, EMPTY.(staticIPs := s, dynamicIPs := d));
    RecoveredOrderly(w, Step(w, Restart(s, d, listed)));
  }

  lemma RecoveredShows(services: map<Key, Service>, m: Memory)
    ensures forall k :: k in Recovered(services, m) ==> k in services && Recovered(services, m)[k] in services[k].ingress
  {
  }

  /** A memory that holds nothing but what the statuses show is orderly. */
  lemma RecoveredOrderly(w: World, out: World)
    requires Orderly(w) && out.tags == w.tags && out.services == w.services && out.memory.ipAssignments == map[]
    requires forall k :: k in out.memory.serviceIPs ==> k in w.services && out.memory.serviceIPs[k] in w.services[k].ingress
    ensures Orderly(out) && Considerate(w, out)
  {
    assert Claims(out) <= Claims(w);
  }

  lemma OrderlyOther(w: World, e: Event)
    requires Orderly(w) && (e.Apply? || e.Remove? || e.Refresh? || e.Failover?)
    ensures Orderly(Step(w, e)) && Considerate(w, Step(w, e))
  {
    var out := Step(w, e);
    assert forall k :: k in out.services ==>
      out.services[k].ingress == [] || (k in w.services && out.services[k].ingress == w.services[k].ingress);
    LessClaimed(w, out);
  }

  /** Holding and showing no more than before is always orderly. */
  lemma LessClaimed(w: World, out: World)
    requires Orderly(w) && out.tags == w.tags
    requires out.memory.ipAssignments.Keys <= w.memory.ipAssignments.Keys && out.memory.serviceIPs == w.memory.serviceIPs
    requires forall k :: k in out.services ==>
               out.services[k].ingress == [] || (k in w.services && out.services[k].ingress == w.services[k].ingress)
    ensures Orderly(out) && Considerate(w, out)
  {
    assert Claims(out) <= Claims(w);
  }

  lemma OrderlyStep(w: World, e: Event)
    requires Orderly(w) && Cooperates(w, e) && !PublishesUnrecorded(w, e)
    ensures Orderly(Step(w, e)) && Considerate(w, Step(w, e))
  {
    if e.Reconcile? {
      OrderlyReconcile(w, e.svc, e.node, e.calls);
    } else if e.Release? {
      OrderlyRelease(w, e.key, e.untag);
    } else if e.Restart? {
      OrderlyRestart(w, e.staticIPs, e.dynamicIPs, e.listed);
    } else {
      OrderlyOther(w, e);
    }
  }

  /** The exact condition: a cooperating step keeps a cluster orderly if and only if it does not
      publish an IP without recording it. */
  lemma OrderlyIff(w: World, e: Event)
    requires Orderly(w) && Cooperates(w, e)
    ensures Orderly(Step(w, e)) <==> !PublishesUnrecorded(w, e)
  {
    if PublishesUnrecorded(w, e) {
      var ip := Allocated(w, e.svc, e.calls);
      AllocatedIsFresh(w, e.svc, e.calls);
      assert ip in Step(w, e).services[e.svc.key].ingress;
      assert ip in Claims(Step(w, e));
    } else {
      OrderlyStep(w, e);
    }
  }

  /** Any number of clusters that share one account and its tag table. */
  datatype Account = Account(clusters: seq<World>, tags: seq<Tag>)

  function ClusterAt(a: Account, i: nat): World
    requires i < |a.clusters|
  {
    a.clusters[i].(tags := a.tags)
  }

  /** Cluster `i` takes a step: one service reconcile, one release, a restart, ... */
  function Act(a: Account, i: nat, e: Event): Account
    requires i < |a.clusters|
  {
    Becomes(a, i, Step(ClusterAt(a, i), e))
  }

  ghost predicate Exclusive(a: Account) {
    && (forall i :: 0 <= i < |a.clusters| ==> Orderly(ClusterAt(a, i)))
    && (forall i, j :: 0 <= i < |a.clusters| && 0 <= j < |a.clusters| && i != j ==>
          Claims(ClusterAt(a, i)) !! Claims(ClusterAt(a, j)))
  }

  predicate GoodStep(a: Account, i: nat, e: Event) {
    i < |a.clusters| && Cooperates(ClusterAt(a, i), e) && !PublishesUnrecorded(ClusterAt(a, i), e)
  }

  lemma BystanderStaysOrderly(other: World, w: World, out: World)
    requires Orderly(other) && other.tags == w.tags && Claims(other) !! Claims(w) && Considerate(w, out)
    ensures Orderly(other.(tags := out.tags))
    ensures Claims(other.(tags := out.tags)) == Claims(other) && Claims(other) !! Claims(out)
  {
    assert Claims(other.(tags := out.tags)) == Claims(other);
  }

  lemma ExclusiveStep(a: Account, i: nat, e: Event)
    requires Exclusive(a) && GoodStep(a, i, e)
    ensures Exclusive(Act(a, i, e))
  {
    OrderlyStep(ClusterAt(a, i), e);
    ExclusiveBecomes(a, i, Step(ClusterAt(a, i), e));
  }

  /** Cluster `i` and the tag table have become those of `out`. */
  function Becomes(a: Account, i: nat, out: World): Account
    requires i < |a.clusters|
  {
    Account(a.clusters[i := out], out.tags)
  }

  lemma ExclusiveBecomes(a: Account, i: nat, out: World)
    requires Exclusive(a) && i < |a.clusters| && Orderly(out) && Considerate(ClusterAt(a, i), out)
    ensures Exclusive(Becomes(a, i, out))
  {
    var b := Becomes(a, i, out);
    var w := ClusterAt(a, i);
    assert ClusterAt(b, i) == out;
    forall j | 0 <= j < |a.clusters| && j != i
      ensures Orderly(ClusterAt(b, j)) && Claims(ClusterAt(b, j)) == Claims(ClusterAt(a, j))
      ensures Claims(ClusterAt(a, j)) !! Claims(out)
    {
      var other := ClusterAt(a, j);
      assert ClusterAt(b, j) == other.(tags := out.tags);
      BystanderStaysOrderly(other, w, out);
    }
  }

  /** The reconcile allocates an IP and goes on to record it. */
  predicate Takes(w: World, e: Event) {
    e.Reconcile? && Allocated(w, e.svc, e.calls) != "" && e.node != "" && ManualMode(w.memory, e.node, e.calls.manual)
  }

  /** Why a step is a whole reconcile: the probe and the tag write are separate requests. When two
      clusters probe the same table before either has tagged, the account stays exclusive if and
      only if they picked different IPs. */
  lemma RaceIff(a: Account, i: nat, e: Event, j: nat, f: Event)
    requires Exclusive(a) && i != j && GoodStep(a, i, e) && GoodStep(a, j, f)
    requires Takes(ClusterAt(a, i), e) && Takes(ClusterAt(a, j), f)
    ensures var b := Act(a, i, e);
            var late := Assign(ClusterAt(b, j), f.svc.key, Allocated(ClusterAt(a, j), f.svc, f.calls), f.node, f.calls);
            Exclusive(Becomes(b, j, late)) <==>
              Allocated(ClusterAt(a, i), e.svc, e.calls) != Allocated(ClusterAt(a, j), f.svc, f.calls)
  {
    TakesAct(a, i, e);
    RaceFrom(a, Act(a, i, e), i, Allocated(ClusterAt(a, i), e.svc, e.calls), j, f);
  }

  /** `b` is the account once cluster `i` has assigned `mine`. */
  lemma RaceFrom(a: Account, b: Account, i: nat, mine: Id, j: nat, f: Event)
    requires Exclusive(b) && i < |b.clusters| == |a.clusters| && j < |a.clusters| && i != j && b.clusters[j] == a.clusters[j]
    requires mine in b.clusters[i].memory.ipAssignments && Reserved(b.tags) == Reserved(a.tags) + {mine}
    requires GoodStep(a, j, f) && Takes(ClusterAt(a, j), f)
    ensures var theirs := Allocated(ClusterAt(a, j), f.svc, f.calls);
            Exclusive(Becomes(b, j, Assign(ClusterAt(b, j), f.svc.key, theirs, f.node, f.calls))) <==> mine != theirs
  {
    var theirs := Allocated(ClusterAt(a, j), f.svc, f.calls);
    AllocatedIsFresh(ClusterAt(a, j), f.svc, f.calls);
    LateAssign(b, i, mine, j, f.svc.key, theirs, f.node, f.calls);
  }

  lemma TakesAct(a: Account, i: nat, e: Event)
    requires Exclusive(a) && GoodStep(a, i, e) && Takes(ClusterAt(a, i), e)
    ensures var b, mine := Act(a, i, e), Allocated(ClusterAt(a, i), e.svc, e.calls);
            && Exclusive(b) && |b.clusters| == |a.clusters| && (forall j :: 0 <= j < |a.clusters| && j != i ==> b.clusters[j] == a.clusters[j])
            && mine in b.clusters[i].memory.ipAssignments && Reserved(b.tags) == Reserved(a.tags) + {mine}
  {
    TakesIP(ClusterAt(a, i), e);
    ExclusiveStep(a, i, e);
  }

  /** Cluster `j` assigns an IP after cluster `i` has assigned `mine`. */
  lemma LateAssign(b: Account, i: nat, mine: Id, j: nat, key: Key, theirs: Id, node: Id, calls: Calls)
    requires Exclusive(b) && i < |b.clusters| && j < |b.clusters| && i != j
    requires mine in b.clusters[i].memory.ipAssignments && (theirs != mine ==> theirs !in Reserved(b.tags))
    requires node != "" && ManualMode(b.clusters[j].memory, node, calls.manual) && Reserves(calls.tagging, key)
    ensures Exclusive(Becomes(b, j, Assign(ClusterAt(b, j), key, theirs, node, calls))) <==> mine != theirs
  {
    var late := Assign(ClusterAt(b, j), key, theirs, node, calls);
    if mine != theirs {
      OrderlyAssign(ClusterAt(b, j), key, theirs, node, calls);
      ExclusiveBecomes(b, j, late);
    } else {
      var c := Becomes(b, j, late);
      assert mine in Claims(ClusterAt(c, i));
      assert mine in Claims(ClusterAt(c, j));
    }
  }

  lemma TakesIP(w: World, e: Event)
    requires Takes(w, e) && Cooperates(w, e)
    ensures var ip := Allocated(w, e.svc, e.calls);
            ip in Step(w, e).memory.ipAssignments && Reserved(Step(w, e).tags) == Reserved(w.tags) + {ip}
  {
    TagIPReserves(w, Allocated(w, e.svc, e.calls), e.svc.key, e.calls.tagging);
  }

  datatype Move = Move(i: nat, e: Event)

  function ActAll(a: Account, moves: seq<Move>): (out: Account)
    ensures |out.clusters| == |a.clusters|
  {
    if moves == [] then a else
      var before := ActAll(a, moves[..|moves| - 1]);
      var move := moves[|moves| - 1];
      if move.i < |before.clusters| then Act(before, move.i, move.e) else before
  }

  ghost predicate GoodRun(a: Account, moves: seq<Move>) {
    forall k :: 0 <= k < |moves| ==> GoodStep(ActAll(a, moves[..k]), moves[k].i, moves[k].e)
  }

  /** Cross-cluster exclusivity, restarts included: in every run in which tag calls succeed, each
      assigned IP carries a `service:*` tag and no IP is assigned by two controllers or held by
      two services anywhere in the account. */
  lemma {:induction false} AlwaysExclusive(a: Account, moves: seq<Move>)
    requires Exclusive(a) && GoodRun(a, moves)
    ensures Exclusive(ActAll(a, moves))
  {
    if moves != [] {
      var n := |moves| - 1;
      assert forall k :: 0 <= k < n ==> moves[..n][..k] == moves[..k];
      AlwaysExclusive(a, moves[..n]);
      assert moves[..n] == moves[..|moves| - 1];
      ExclusiveStep(ActAll(a, moves[..n]), moves[n].i, moves[n].e);
    }
  }

  lemma FreshAccountIsExclusive(names: seq<string>, tags: seq<Tag>)
    ensures Exclusive(Account(seq(|names|, i requires 0 <= i < |names| => World(names[i], EMPTY, map[], tags)), tags))
  {
    var a := Account(seq(|names|, i requires 0 <= i < |names| => World(names[i], EMPTY, map[], tags)), tags);
    assert forall i :: 0 <= i < |names| ==> Claims(ClusterAt(a, i)) == {};
  }

  lemma ExclusiveMeans(a: Account, i: nat, j: nat, ip: Id)
    requires Exclusive(a) && i < |a.clusters| && j < |a.clusters|
    requires ip in a.clusters[i].memory.ipAssignments
    ensures ip in Reserved(a.tags)
    ensures ip in a.clusters[j].memory.ipAssignments ==> i == j
  {
    assert ip in Claims(ClusterAt(a, i));
    if ip in a.clusters[j].memory.ipAssignments {
      assert ip in Claims(ClusterAt(a, j));
    }
  }
}

/** What the operations of the load balancer controller achieve, output by output: what they publish,
    how they tag and what a release frees. */
module Outcomes {
  import opened Base
  import opened Tags
  import opened LoadBalancer
  import opened Reservation
  import opened Steadiness

  /** No step assigns an IP to a node without a UUID. */
  lemma AssignedNodesHaveUUIDs(w: World, e: Event)
    requires forall ip :: ip in w.memory.ipAssignments ==> w.memory.ipAssignments[ip] != ""
    ensures forall ip :: ip in Step(w, e).memory.ipAssignments ==> Step(w, e).memory.ipAssignments[ip] != ""
  {
  }

  // ----- Publishing -----

  /** A recorded service whose status shows no pool IP gets its IP published, however often earlier
      writes failed; nothing else happens, and a failed write changes nothing. */
  lemma RecordedIsPublished(w: World, svc: Service, node: Id, calls: Calls)
    requires svc.key in w.memory.serviceIPs && FirstPoolIP(w.memory, svc.ingress).None?
    ensures var out := Step(w, Reconcile(svc, node, calls));
            && out.memory == w.memory && out.tags == w.tags && out.services.Keys == w.services.Keys
            && (calls.status && svc.key in w.services ==> out.services[svc.key].ingress == [w.memory.serviceIPs[svc.key]])
            && (!calls.status ==> out == w)
  {
  }

  /** A reconcile whose node cannot be switched to manual mode leaves a new service as it was. */
  lemma FailedSwitchChangesNothing(w: World, svc: Service, node: Id, calls: Calls)
    requires FirstPoolIP(w.memory, svc.ingress).None? && svc.key !in w.memory.serviceIPs
    requires node != "" && !ManualMode(w.memory, node, calls.manual)
    ensures Step(w, Reconcile(svc, node, calls)) == w
  {
  }

  /** The status of `key` shows its recorded IP and nothing else. */
  predicate Shown(w: World, key: Key) {
    key in w.memory.serviceIPs && key in w.services ==> w.services[key].ingress == [w.memory.serviceIPs[key]]
  }

  lemma ReconcileShows(w: World, svc: Service, node: Id, calls: Calls)
    requires Sound(w.memory) && Mirrored(w) && svc.key in w.services && svc == w.services[svc.key]
    requires node != "" && calls.status
    ensures Shown(ReconcileService(w, svc, node, calls), svc.key)
  {
    if svc.ingress != [] {
      assert svc.ingress == [w.memory.serviceIPs[svc.key]];
      assert FirstPoolIP(w.memory, svc.ingress) in {None, Some(w.memory.serviceIPs[svc.key])} by {
        assert svc.ingress[1..] == [];
      }
    }
  }

  lemma OthersStayShown(w: World, svc: Service, node: Id, calls: Calls, key: Key)
    requires svc.key != key && Shown(w, key) && (key in w.memory.serviceIPs || key !in ReconcileService(w, svc, node, calls).memory.serviceIPs)
    ensures Shown(ReconcileService(w, svc, node, calls), key)
  {
    ReconcileFrame(w, svc, node, calls);
    if key in w.memory.serviceIPs { OthersKeep(w, svc, node, calls, key); }
  }

  /** A reconcile records nobody but its own service. */
  lemma RecordsOnlyItsOwn(w: World, svc: Service, node: Id, calls: Calls, key: Key)
    requires key != svc.key
    ensures key in ReconcileService(w, svc, node, calls).memory.serviceIPs <==> key in w.memory.serviceIPs
  {
  }

  lemma {:induction false} SteadyKeeps(w: World, es: seq<Event>)
    requires Sound(w.memory) && Mirrored(w) && SteadyRun(w, es)
    ensures Sound(Run(w, es).memory) && Mirrored(Run(w, es))
  {
    if es != [] {
      var n := |es| - 1;
      SteadyFront(w, es);
      SteadyKeeps(w, es[..n]);
      SoundStep(Run(w, es[..n]), es[n]);
      MirroredIff(Run(w, es[..n]), es[n]);
    }
  }

  predicate Writes(e: Event) {
    e.Reconcile? && e.node != "" && e.calls.status
  }

  lemma HealedStep(w: World, e: Event, key: Key)
    requires Sound(w.memory) && Mirrored(w) && Current(w, e) && Writes(e) && (e.svc.key == key || Shown(w, key))
    ensures Shown(Step(w, e), key)
  {
    if e.svc.key == key {
      ReconcileShows(w, e.svc, e.node, e.calls);
    } else {
      RecordsOnlyItsOwn(w, e.svc, e.node, e.calls, key);
      OthersStayShown(w, e.svc, e.node, e.calls, key);
    }
  }

  /** One of the events reconciles `key`. */
  predicate Visits(es: seq<Event>, key: Key) {
    es != [] && ((es[|es| - 1].Reconcile? && es[|es| - 1].svc.key == key) || Visits(es[..|es| - 1], key))
  }

  lemma {:induction false} VisitsAt(es: seq<Event>, i: nat, key: Key)
    requires i < |es| && es[i].Reconcile? && es[i].svc.key == key
    ensures Visits(es, key)
  {
    if i < |es| - 1 { VisitsAt(es[..|es| - 1], i, key); }
  }

  lemma {:induction false} HealedRun(w: World, es: seq<Event>, key: Key)
    requires Sound(w.memory) && Mirrored(w) && SteadyRun(w, es) && forall e :: e in es ==> Writes(e)
    requires Visits(es, key)
    ensures Shown(Run(w, es), key)
  {
    var n := |es| - 1;
    SteadyFront(w, es);
    SteadyKeeps(w, es[..n]);
    assert es[n] in es && Writes(es[n]);
    if es[n].svc.key != key { HealedRun(w, es[..n], key); }
    HealedStep(Run(w, es[..n]), es[n], key);
  }

  lemma SteadyFront(w: World, es: seq<Event>)
    requires SteadyRun(w, es) && es != []
    ensures var n := |es| - 1;
            SteadyRun(w, es[..n]) && Current(Run(w, es[..n]), es[n]) && !PublishesUnrecorded(Run(w, es[..n]), es[n])
  {
    var n := |es| - 1;
    assert forall j :: 0 <= j < n ==> es[..n][..j] == es[..j];
  }

  /** One pass over a current listing, with status writes that succeed, heals every earlier failure:
      afterwards each listed service that has an IP shows it. */
  lemma SyncHealsStatuses(w: World, es: seq<Event>, services: seq<Service>, node: Id, i: nat)
    requires Sound(w.memory) && Mirrored(w) && Lists(services, w.services) && node != ""
    requires InListOrder(es, services, node) && (forall j :: 0 <= j < |es| ==> es[j].calls.status) && i < |services|
    ensures Shown(Run(w, es), services[i].key)
  {
    ReconcilesSteady(w, es, services, node);
    VisitsAt(es, i, services[i].key);
    HealedRun(w, es, services[i].key);
  }

  // ----- Tagging -----

  /** The IP that a reconcile tags: the pool IP in the status, once somebody is assigned it and if the
      service has ports; or the one it has just recorded. */
  function TaggedIP(w: World, svc: Service, node: Id, calls: Calls): Option<Id> {
    match FirstPoolIP(w.memory, svc.ingress)
    case Some(ip) => if (ip in w.memory.ipAssignments || node != "") && svc.ports then Some(ip) else None
    case None =>
      var ip := Allocated(w, svc, calls);
      if ip != "" && node != "" && ManualMode(w.memory, node, calls.manual) then Some(ip) else None
  }

  /** service:<namespace>-<name>, spelled out character by character. */
  predicate NamesService(name: string, key: Key) {
    |name| == 8 + |key| && name[..8] == "service:"
    && forall i :: 0 <= i < |key| ==> name[8 + i] == if key[i] == '/' then '-' else key[i]
  }

  lemma SameString(a: string, b: string)
    requires |a| == |b| && forall i :: 0 <= i < |a| ==> a[i] == b[i]
    ensures a == b
  {
  }

  lemma ServiceTagIs(name: string, key: Key)
    ensures name == ServiceTag(key) <==> NamesService(name, key)
  {
    var tag, dashed := ServiceTag(key), Dashed(key);
    assert tag == "service:" + dashed && tag[..8] == "service:" && tag[8..] == dashed;
    if NamesService(name, key) {
      SameString(name[8..], dashed);
      assert name == name[..8] + name[8..];
    }
  }

  /** The three tags of a service's IP. */
  predicate OwnTag(name: string, cluster: string, key: Key) {
    name == "cluster:" + cluster || NamesService(name, key) || name == "managed-by:cloudsigma-ccm"
  }

  lemma TaggedWorld(w: World, svc: Service, node: Id, calls: Calls)
    ensures ReconcileService(w, svc, node, calls).tags ==
            match TaggedIP(w, svc, node, calls)
            case None => w.tags
            case Some(ip) => Retag(w.tags, ip, DesiredTags(w.cluster, svc.key), calls.tagging)
  {
  }

  /** A reconcile whose tag calls succeed leaves the IP of the service in exactly its cluster tag, its
      service tag and the managed-by tag, of all tags that the controller manages; other tags, and all
      tags when there is nothing to tag, stay as they are. */
  lemma ReconcileTags(w: World, svc: Service, node: Id, calls: Calls, name: string)
    requires UniqueNames(w.tags) && Done(calls.tagging, DesiredTags(w.cluster, svc.key))
    ensures var before, after := Members(w.tags, name), Members(Step(w, Reconcile(svc, node, calls)).tags, name);
            match TaggedIP(w, svc, node, calls)
            case None => after == before
            case Some(ip) =>
              && (Managed(Ccm, name) ==> (ip in after <==> OwnTag(name, w.cluster, svc.key)))
              && (!Managed(Ccm, name) ==> after == before)
              && forall x :: x != ip ==> (x in after <==> x in before)
  {
    TaggedWorld(w, svc, node, calls);
    var tagged := TaggedIP(w, svc, node, calls);
    if tagged.Some? {
      TagLaw(w.tags, tagged.value, DesiredTags(w.cluster, svc.key), calls.tagging, name);
      SettledIs(name, Members(w.tags, name), tagged.value, w.cluster, svc.key);
    }
  }

  lemma SettledIs(name: string, before: seq<Id>, ip: Id, cluster: string, key: Key)
    ensures var after := Settled(name, before, ip, DesiredTags(cluster, key));
            && (Managed(Ccm, name) ==> (ip in after <==> OwnTag(name, cluster, key)))
            && (!Managed(Ccm, name) ==> after == before)
            && forall x :: x != ip ==> (x in after <==> x in before)
  {
    ServiceTagIs(name, key);
    assert name in DesiredTags(cluster, key) <==> OwnTag(name, cluster, key);
  }

  // ----- Releasing -----

  /** A complete release frees the IP for every cluster: it carries no tag that the controller manages,
      is neither recorded nor assigned, and nothing else in memory or in the statuses changes. */
  lemma ReleaseFrees(w: World, key: Key, untag: StripCalls, name: string)
    requires key in w.memory.serviceIPs && Clean(untag)
    ensures var ip, out := w.memory.serviceIPs[key], Step(w, Release(key, untag));
            && ip !in Reserved(out.tags)
            && (UniqueNames(w.tags) && Managed(Ccm, name) ==> ip !in Members(out.tags, name))
            && (UniqueNames(w.tags) && !Managed(Ccm, name) ==> Members(out.tags, name) == Members(w.tags, name))
            && key !in out.memory.serviceIPs && ip !in out.memory.ipAssignments
            && (forall k :: k in w.memory.serviceIPs && k != key ==>
                  k in out.memory.serviceIPs && out.memory.serviceIPs[k] == w.memory.serviceIPs[k])
            && (forall x :: x in w.memory.ipAssignments && x != ip ==>
                  x in out.memory.ipAssignments && out.memory.ipAssignments[x] == w.memory.ipAssignments[x])
            && out.services == w.services && out.memory.manualModeNodes == w.memory.manualModeNodes
            && out.memory.staticIPs == w.memory.staticIPs && out.memory.dynamicIPs == w.memory.dynamicIPs
  {
    var ip := w.memory.serviceIPs[key];
    StripFrees(w.tags, ip, untag);
    if UniqueNames(w.tags) { StripMembers(Ccm, w.tags, ip, {}, untag, name); }
  }

  /** And so the next allocation can give it out again: it is free in every pool that has it. */
  lemma ReleasedIsAllocatable(w: World, key: Key, untag: StripCalls, pool: seq<Id>, probes: seq<Listing>, i: nat)
    requires key in w.memory.serviceIPs && Clean(untag) && i < |pool| && pool[i] == w.memory.serviceIPs[key]
    ensures var out := Step(w, Release(key, untag));
            Free(out.memory, out.tags, pool, probes, i) <==> !Probe(probes, i).Failed?
  {
    StripFrees(w.tags, w.memory.serviceIPs[key], untag);
  }
}

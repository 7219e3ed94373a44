/** What a service and a node failure can rely on: sticky service IPs and the failover law. */
module Steadiness {
  import opened Base
  import opened Tags
  import opened LoadBalancer
  import opened Reservation

  // ----- Sticky service IPs -----

  /** A status is either empty or shows the one IP that memory records for the service. */
  ghost predicate Mirrored(w: World) {
    forall k :: k in w.services && w.services[k].ingress != [] ==>
      k in w.memory.serviceIPs && w.services[k].ingress == [w.memory.serviceIPs[k]]
  }

  /** A step of the running controller on current copies: no restart, and it releases only
      services that are gone. */
  predicate Current(w: World, e: Event) {
    && (e.Reconcile? ==> e.svc.key in w.services && e.svc == w.services[e.svc.key])
    && (e.Release? ==> e.key !in w.services)
    && !e.Restart?
  }

  /** A controller step keeps statuses and memory in step if and only if it does not publish an
      unrecorded IP. */
  lemma MirroredIff(w: World, e: Event)
    requires Sound(w.memory) && Mirrored(w) && Current(w, e)
    ensures Mirrored(Step(w, e)) <==> !PublishesUnrecorded(w, e)
  {
    var out := Step(w, e);
    if e.Reconcile? && PublishesUnrecorded(w, e) {
      assert out.services[e.svc.key].ingress == [Allocated(w, e.svc, e.calls)];
    }
  }

  /** The one way a recorded IP is replaced: the status shows a pool IP that nobody is assigned
      and the first healthy node can take it. A caller can read all three off the state. */
  predicate Replaces(w: World, svc: Service, node: Id) {
    var found := FirstPoolIP(w.memory, svc.ingress);
    found.Some? && found.value !in w.memory.ipAssignments && node != ""
  }

  lemma StickyIff(w: World, svc: Service, node: Id, calls: Calls)
    requires Sound(w.memory) && svc.key in w.memory.serviceIPs
    ensures var m := ReconcileService(w, svc, node, calls).memory;
            svc.key in m.serviceIPs && (m.serviceIPs[svc.key] == w.memory.serviceIPs[svc.key] <==> !Replaces(w, svc, node))
  {
  }

  lemma StickyStep(w: World, e: Event, key: Key)
    requires Sound(w.memory) && Mirrored(w) && Current(w, e)
    requires key in w.memory.serviceIPs && !(e.Release? && e.key == key)
    ensures key in Step(w, e).memory.serviceIPs && Step(w, e).memory.serviceIPs[key] == w.memory.serviceIPs[key]
  {
    if e.Reconcile? {
      if e.svc.key == key { StickyIff(w, e.svc, e.node, e.calls); } else { OthersKeep(w, e.svc, e.node, e.calls, key); }
    }
  }

  lemma OthersKeep(w: World, svc: Service, node: Id, calls: Calls, key: Key)
    requires svc.key != key && key in w.memory.serviceIPs
    ensures var m := ReconcileService(w, svc, node, calls).memory;
            key in m.serviceIPs && m.serviceIPs[key] == w.memory.serviceIPs[key]
  {
  }

  ghost predicate SteadyRun(w: World, es: seq<Event>) {
    forall i :: 0 <= i < |es| ==>
      Current(Run(w, es[..i]), es[i]) && !PublishesUnrecorded(Run(w, es[..i]), es[i])
  }

  /** A recorded service keeps its IP, in memory and in any non-empty status, through every run of
      syncs, failed writes, failovers and pool refreshes, until its release. */
  lemma {:induction false} StickyRun(w: World, es: seq<Event>, key: Key)
    requires Sound(w.memory) && Mirrored(w) && SteadyRun(w, es)
    requires key in w.memory.serviceIPs && forall i :: 0 <= i < |es| ==> !(es[i].Release? && es[i].key == key)
    ensures var out := Run(w, es);
            && Sound(out.memory) && Mirrored(out)
            && key in out.memory.serviceIPs && out.memory.serviceIPs[key] == w.memory.serviceIPs[key]
            && (key in out.services ==> out.services[key].ingress in {[], [w.memory.serviceIPs[key]]})
  {
    if es != [] {
      var n := |es| - 1;
      assert forall i :: 0 <= i < n ==> es[..n][..i] == es[..i];
      StickyRun(w, es[..n], key);
      var before := Run(w, es[..n]);
      SoundStep(before, es[n]);
      MirroredIff(before, es[n]);
      StickyStep(before, es[n], key);
    }
  }

  // ----- A sync over a current listing is a steady run -----

  /** The listing shows every stored service once, as it is stored. */
  ghost predicate Lists(services: seq<Service>, store: map<Key, Service>) {
    && (forall i :: 0 <= i < |services| ==> services[i].key in store && store[services[i].key] == services[i])
    && (forall i, j :: 0 <= i < j < |services| ==> services[i].key != services[j].key)
    && (forall k :: k in store ==> exists i :: 0 <= i < |services| && services[i].key == k)
  }

  lemma SteadyAppend(w: World, a: seq<Event>, b: seq<Event>)
    requires SteadyRun(w, a) && SteadyRun(Run(w, a), b)
    ensures SteadyRun(w, a + b)
  {
    forall i | 0 <= i < |a + b|
      ensures Current(Run(w, (a + b)[..i]), (a + b)[i]) && !PublishesUnrecorded(Run(w, (a + b)[..i]), (a + b)[i])
    {
      if i < |a| {
        assert (a + b)[..i] == a[..i];
      } else {
        assert (a + b)[..i] == a + b[..i - |a|];
        RunAppend(w, a, b[..i - |a|]);
      }
    }
  }

  lemma {:induction false} ReleasesSteady(w: World, es: seq<Event>)
    requires forall i :: 0 <= i < |es| ==> es[i].Release? && es[i].key !in w.services
    ensures SteadyRun(w, es) && Run(w, es).services == w.services
  {
    if es != [] {
      var n := |es| - 1;
      ReleasesSteady(w, es[..n]);
      assert es[..n] + [es[n]] == es;
      SteadyAppend(w, es[..n], [es[n]]);
    }
  }

  /** The events of the loop over the listed services. */
  ghost predicate InListOrder(es: seq<Event>, services: seq<Service>, node: Id) {
    |es| == |services| && forall i :: 0 <= i < |es| ==> es[i].Reconcile? && es[i].svc == services[i] && es[i].node == node
  }

  /** Reconciles of other services leave a service as it is stored. */
  lemma {:induction false} OthersLeave(w: World, es: seq<Event>, key: Key)
    requires key in w.services && forall i :: 0 <= i < |es| ==> es[i].Reconcile? && es[i].svc.key != key
    ensures key in Run(w, es).services && Run(w, es).services[key] == w.services[key]
  {
    if es != [] {
      var n := |es| - 1;
      OthersLeave(w, es[..n], key);
      ReconcileFrame(Run(w, es[..n]), es[n].svc, es[n].node, es[n].calls);
    }
  }

  lemma ReconcilesSteady(w: World, es: seq<Event>, services: seq<Service>, node: Id)
    requires Lists(services, w.services) && InListOrder(es, services, node) && node != ""
    ensures SteadyRun(w, es)
  {
    forall i | 0 <= i < |es| ensures Current(Run(w, es[..i]), es[i]) && !PublishesUnrecorded(Run(w, es[..i]), es[i]) {
      assert forall j :: 0 <= j < i ==> es[..i][j] == es[j] && services[j].key != services[i].key;
      OthersLeave(w, es[..i], services[i].key);
    }
  }

  /** A reconcile writes no other service's status. */
  lemma ReconcileFrame(w: World, svc: Service, node: Id, calls: Calls)
    ensures var out := ReconcileService(w, svc, node, calls);
            out.services.Keys == w.services.Keys && forall k :: k in w.services && k != svc.key ==> out.services[k] == w.services[k]
  {
  }

  lemma {:induction false} FailoversSteady(w: World, es: seq<Event>)
    requires forall i :: 0 <= i < |es| ==> es[i].Failover?
    ensures SteadyRun(w, es)
  {
  }

  /** So stickiness, and everything else that holds of steady runs, holds of whole syncs. */
  lemma SyncSteady(w: World, services: seq<Service>, node: Id, releases: seq<Event>, reconciles: seq<Event>, moves: seq<Event>)
    requires Lists(services, w.services) && node != "" && InListOrder(reconciles, services, node)
    requires forall i :: 0 <= i < |releases| ==> releases[i].Release? && forall s :: s in services ==> s.key != releases[i].key
    requires forall i :: 0 <= i < |moves| ==> moves[i].Failover?
    ensures SteadyRun(w, releases + reconciles + moves)
  {
    ReleasesSteady(w, releases);
    var w1 := Run(w, releases);
    ReconcilesSteady(w1, reconciles, services, node);
    SteadyAppend(w, releases, reconciles);
    FailoversSteady(Run(w, releases + reconciles), moves);
    SteadyAppend(w, releases + reconciles, moves);
  }

  /** A restart keeps it too, if the status was written and the IP is still in a pool: recovery
      finds it, or, when the services could not be listed, the next reconcile adopts it. */
  lemma StickyAcrossRestart(w: World, s: seq<Id>, d: seq<Id>, listed: bool, key: Key, node: Id, calls: Calls)
    requires Mirrored(w) && key in w.services && w.services[key].key == key && w.services[key].ingress != []
    requires w.memory.serviceIPs[key] in s + d && node != ""
    ensures var out := Step(w, Restart(s, d, listed));
            var next := ReconcileService(out, out.services[key], node, calls).memory;
            && (listed <==> key in out.memory.serviceIPs)
            && (listed ==> out.memory.serviceIPs[key] == w.memory.serviceIPs[key])
            && key in next.serviceIPs && next.serviceIPs[key] == w.memory.serviceIPs[key]
            && next.serviceIPs[key] in next.ipAssignments
  {
    var ingress := w.services[key].ingress;
    assert ingress[|ingress| - 1] == w.memory.serviceIPs[key];
    var out := Step(w, Restart(s, d, listed));
    assert FirstPoolIP(out.memory, ingress) == Some(w.memory.serviceIPs[key]);
  }

  // ----- What a reconcile achieves for a new service, and where IPs may sit -----

  /** A new service that meets a usable node is served if and only if its pool has a free IP, and
      then it gets the first one: recorded, assigned to that node and, if the write succeeds, published. */
  lemma ServedIff(w: World, svc: Service, node: Id, calls: Calls)
    requires FirstPoolIP(w.memory, svc.ingress).None? && svc.key !in w.memory.serviceIPs
    requires "" !in (if svc.dynamic then w.memory.dynamicIPs else w.memory.staticIPs) && node != "" && ManualMode(w.memory, node, calls.manual)
    ensures var pool := if svc.dynamic then w.memory.dynamicIPs else w.memory.staticIPs;
            var out := ReconcileService(w, svc, node, calls);
            && (svc.key in out.memory.serviceIPs <==> exists j :: 0 <= j < |pool| && Free(w.memory, w.tags, pool, calls.probes, j))
            && (svc.key in out.memory.serviceIPs ==>
                  var ip := out.memory.serviceIPs[svc.key];
                  && (exists j :: 0 <= j < |pool| && FirstFree(w.memory, w.tags, pool, calls.probes, 0, j) && pool[j] == ip)
                  && out.memory.ipAssignments == w.memory.ipAssignments[ip := node]
                  && (calls.status && svc.key in w.services ==> out.services[svc.key].ingress == [ip]))
            && (svc.key !in out.memory.serviceIPs ==> out == w)
  {
    AllocateFirst(w.memory, w.tags, Pool(w.memory, svc.dynamic), calls.probes, 0);
  }

  /** Every assigned node is recorded as switched to manual mode. */
  ghost predicate Switched(m: Memory) {
    forall ip :: ip in m.ipAssignments ==> m.ipAssignments[ip] in m.manualModeNodes
  }

  /** A reconcile adopts a published IP onto a node that was never switched. */
  predicate AdoptsUnswitched(w: World, e: Event) {
    e.Reconcile? && Replaces(w, e.svc, e.node) && e.node !in w.memory.manualModeNodes
  }

  /** The exact condition: adoption is the one step that puts an IP on a node not known to be in
      manual mode. */
  lemma SwitchedIff(w: World, e: Event)
    requires Switched(w.memory)
    ensures Switched(Step(w, e).memory) <==> !AdoptsUnswitched(w, e)
  {
    if AdoptsUnswitched(w, e) {
      var ip := FirstPoolIP(w.memory, e.svc.ingress).value;
      assert Step(w, e).memory.ipAssignments[ip] == e.node;
    }
  }

  // ----- Why the premise is there -----

  const POLL := Calls([], true, TagCalls(false, StripCalls(Failed, {}), []), false)
  const WRITE := POLL.(status := true)

  /** One service, whose first reconcile meets a node without a CloudSigma UUID; later the IP leaves
      the pools and comes back. */
  const UNSTICKY := World("c", EMPTY.(staticIPs := ["1"]), map["a/s" := Service("a/s", false, true, [])], [])

  lemma UnrecordedThenReplaced()
    returns (key: Key, es: seq<Event>, last: Event)
    ensures var w := Run(UNSTICKY, es);
            && Mirrored(UNSTICKY) && key in w.memory.serviceIPs && Current(w, last)
            && key in Step(w, last).memory.serviceIPs
            && Step(w, last).memory.serviceIPs[key] != w.memory.serviceIPs[key]
  {
    key := "a/s";
    var shown := Service(key, false, true, ["1"]);
    es := UnstickyRun();
    last := Reconcile(shown, "n", POLL);
    var w := Run(UNSTICKY, es);
    assert FirstPoolIP(w.memory, shown.ingress) == Some("1");
  }

  /** Published unrecorded as "1", recorded as "2" while "1" is out of the pools. */
  lemma UnstickyRun() returns (es: seq<Event>)
    ensures var shown := Service("a/s", false, true, ["1"]);
            Run(UNSTICKY, es) == World("c", Memory(["1"], [], map["2" := "n"], map["a/s" := "2"], {"n"}), map["a/s" := shown], [])
  {
    var key := "a/s";
    var blank := Service(key, false, true, []);
    var shown := Service(key, false, true, ["1"]);
    var e0 := Reconcile(blank, "", WRITE);
    var e1 := Refresh(["2"], []);
    var e2 := Reconcile(shown, "n", POLL);
    var e3 := Refresh(["1"], []);
    es := [e0] + [e1] + [e2] + [e3];
    var w1 := UNSTICKY.(services := map[key := shown]);
    var w2 := w1.(memory := w1.memory.(staticIPs := ["2"]));
    TakesFirst(UNSTICKY, blank, "", WRITE);
    TakesFirst(w2, shown, "n", POLL);
    assert [] + [e0] == [e0];
    RunSnoc(UNSTICKY, [], e0);
    assert Run(UNSTICKY, [e0]) == w1;
    RunSnoc(UNSTICKY, [e0], e1);
    RunSnoc(UNSTICKY, [e0] + [e1], e2);
    RunSnoc(UNSTICKY, [e0] + [e1] + [e2], e3);
  }

  /** A service whose status shows no pool IP gets the first static IP if it is not taken. */
  lemma TakesFirst(w: World, svc: Service, node: Id, calls: Calls)
    requires |w.memory.staticIPs| == 1 && w.memory.staticIPs[0] != "" && !svc.dynamic && w.tags == []
    requires w.memory.staticIPs[0] !in w.memory.ipAssignments && calls.probes == []
    requires svc.key !in w.memory.serviceIPs && forall ip :: ip in svc.ingress ==> !IsPoolIP(w.memory, ip)
    ensures ReconcileService(w, svc, node, calls) == Assign(w, svc.key, w.memory.staticIPs[0], node, calls)
  {
    assert Free(w.memory, w.tags, Pool(w.memory, false), [], 0);
  }

  // ----- Failover -----

  /** The loop of the failover check: `order` is the order in which the copied assignments are
      ranged over, `ok` the IPs for which switching the node to manual mode would succeed. */
  function FailoverAll(m: Memory, order: seq<Id>, healthy: set<Id>, node: Id, ok: set<Id>): Memory {
    if order == [] then m else
      var ip := order[|order| - 1];
      FailoverIP(FailoverAll(m, order[..|order| - 1], healthy, node, ok), ip, healthy, node, ip in ok)
  }

  /** The same loop as events. */
  function Failovers(order: seq<Id>, healthy: set<Id>, node: Id, ok: set<Id>): (es: seq<Event>)
    ensures forall i :: 0 <= i < |es| ==> es[i].Failover?
  {
    seq(|order|, i requires 0 <= i < |order| => Failover(order[i], healthy, node, order[i] in ok))
  }

  lemma {:induction false} FailoversRun(w: World, order: seq<Id>, healthy: set<Id>, node: Id, ok: set<Id>)
    ensures Run(w, Failovers(order, healthy, node, ok)) == w.(memory := FailoverAll(w.memory, order, healthy, node, ok))
  {
    if order != [] {
      var n := |order| - 1;
      FailoversRun(w, order[..n], healthy, node, ok);
      var es := Failovers(order, healthy, node, ok);
      assert es[..n] == Failovers(order[..n], healthy, node, ok);
    }
  }

  /** What the loop may and must have done to the IPs it has seen. */
  ghost predicate FailedOver(m: Memory, out: Memory, seen: seq<Id>, healthy: set<Id>, node: Id, ok: set<Id>) {
    && out == m.(ipAssignments := out.ipAssignments, manualModeNodes := out.manualModeNodes)
    && out.ipAssignments.Keys == m.ipAssignments.Keys
    && m.manualModeNodes <= out.manualModeNodes <= m.manualModeNodes + {node}
    && (forall ip :: ip in m.ipAssignments ==>
          var was, now := m.ipAssignments[ip], out.ipAssignments[ip];
          && (ip !in seen || was in healthy ==> now == was)
          && (now != was ==> now == node && node != "" && node in out.manualModeNodes)
          && (ip in seen && was !in healthy && node != "" && ManualMode(m, node, ip in ok) ==> now == node))
  }

  /** Failover moves exactly the IPs on unhealthy nodes, all to the first healthy node, and only
      once that node is in manual mode; everything else in memory is untouched. */
  lemma {:induction false} FailoverLaw(m: Memory, order: seq<Id>, healthy: set<Id>, node: Id, ok: set<Id>)
    requires node != "" ==> node in healthy
    ensures FailedOver(m, FailoverAll(m, order, healthy, node, ok), order, healthy, node, ok)
  {
    if order != [] {
      var front, last := order[..|order| - 1], order[|order| - 1];
      FailoverLaw(m, front, healthy, node, ok);
      assert order == front + [last];
    }
  }

  /** The postcondition: with a usable first healthy node whose switch succeeds, every assignment
      points at a healthy node afterwards, and a second check changes nothing. */
  lemma FailoverHeals(m: Memory, order: seq<Id>, healthy: set<Id>, node: Id, ok: set<Id>, again: seq<Id>)
    requires node != "" && node in healthy
    requires forall ip :: ip in m.ipAssignments ==> ip in order && ManualMode(m, node, ip in ok)
    ensures var out := FailoverAll(m, order, healthy, node, ok);
            && (forall ip :: ip in out.ipAssignments ==> out.ipAssignments[ip] in healthy)
            && FailoverAll(out, again, healthy, node, ok) == out
  {
    var out := FailoverAll(m, order, healthy, node, ok);
    FailoverLaw(m, order, healthy, node, ok);
    HealthyStays(out, again, healthy, node, ok);
  }

  lemma {:induction false} HealthyStays(m: Memory, order: seq<Id>, healthy: set<Id>, node: Id, ok: set<Id>)
    requires forall ip :: ip in m.ipAssignments ==> m.ipAssignments[ip] in healthy
    ensures FailoverAll(m, order, healthy, node, ok) == m
  {
    if order != [] { HealthyStays(m, order[..|order| - 1], healthy, node, ok); }
  }
}

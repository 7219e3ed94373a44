/** What the machine reconciler reports and persists, output by output, whatever fails. */
module Readiness {
  import opened Base
  import opened Machine
  import Controller

  // ----- Readiness -----

  /** A machine becomes Ready only if its server exists and runs. */
  ghost predicate EarnsReady(before: World, after: World) {
    after.saved.ready && !before.saved.ready ==>
      after.saved.instanceID in after.cloud && after.cloud[after.saved.instanceID].status.Running?
  }

  lemma FollowReady(w: World, c: Machine, id: Id, calls: Calls)
    requires id in w.cloud && c.instanceID == w.saved.instanceID == id && (c.ready ==> w.saved.ready)
    ensures EarnsReady(w, Follow(w, c, id, calls))
  {
  }

  lemma ObserveReady(w: World, c: Machine, id: Id, calls: Calls)
    requires id in w.cloud && c.instanceID == w.saved.instanceID == id && (c.ready ==> w.saved.ready)
    ensures EarnsReady(w, Observe(w, c, id, calls))
  {
    var (w1, c1, go) := FixProvider(w, c.(instanceState := Some(w.cloud[id].status)), id, calls.provider);
    FollowReady(w1, c1, id, calls);
  }

  lemma BindReady(w: World, c: Machine, id: Id, calls: Calls)
    requires id in w.cloud && (c.ready ==> w.saved.ready)
    ensures var (w1, go) := Bind(w, c, id, calls);
            (w1.saved.ready ==> w.saved.ready) && (go ==> EarnsReady(w, Observe(w1, w1.saved, id, calls)))
  {
    var (w1, go) := Bind(w, c, id, calls);
    if go { ObserveReady(w1, w1.saved, id, calls); }
  }

  lemma AdoptReady(w: World, c: Machine, calls: Calls)
    requires c.ready ==> w.saved.ready
    ensures EarnsReady(w, Adopt(w, c, calls))
  {
    var found := Find(w.cloud, calls.listing, c.name, c.uid);
    if found.Some? {
      if found.value in w.cloud { BindReady(w, c, found.value, calls); }
    } else {
      var w1 := w.(cloud := w.cloud[calls.newID := Server(c.name, c.uid, Stopped, true)]);
      BindReady(w1, c, calls.newID, calls);
    }
  }

  lemma HealReady(w: World, c: Machine, calls: Calls)
    requires c.ready ==> w.saved.ready
    ensures EarnsReady(w, Heal(w, c, calls))
  {
    var found := Find(w.cloud, calls.listing, c.name, c.uid);
    if found.Some? && found.value in w.cloud { BindReady(w, c, found.value, calls); }
  }

  /** Whatever fails or is misread, a reconcile makes a machine Ready only if the server that it is bound
      to runs. */
  lemma ReadyIsEarned(w: World, calls: Calls)
    ensures EarnsReady(w, Reconcile(w, calls))
  {
    var w0 := if w.saved.finalizer then w else SaveSpec(w, w.saved.(finalizer := true), calls.finalizer);
    var c := w0.saved;
    var look := Look(w0.cloud, c.instanceID, calls.get);
    if c.instanceID == "" {
      AdoptReady(w0, c, calls);
    } else if look.ReadGone? {
      var c1 := c.(instanceID := "", instanceState := None);
      AdoptReady(SaveStatus(w0, c1, calls.clear), c1, calls);
    } else if look.ReadDenied? {
      HealReady(w0, c, calls);
    } else if look.Truthful? {
      ObserveReady(w0, c, c.instanceID, calls);
    }
  }

  /** For an instance that is seen as it is and is not stopped, with writes that succeed, the report is
      exact: Ready if and only if it runs; its provider ID names it. With a stopped one, readiness stays as
      it was and the server is started. */
  lemma ReportIsExact(w: World, calls: Calls)
    requires var id := w.saved.instanceID; id != "" && id in w.cloud && w.cloud[id].accessible && calls.get.Truthful?
    requires w.saved.finalizer && calls.provider.Ok? && calls.state.Ok? && calls.ready.Ok?
    ensures var id, out := w.saved.instanceID, Reconcile(w, calls);
            var status := w.cloud[id].status;
            && out.saved.instanceID == id && out.saved.providerID == "cloudsigma://" + id
            && (!status.Stopped? ==> (out.saved.ready <==> status.Running?) && out.cloud == w.cloud)
            && (status.Stopped? ==> out.saved.ready == w.saved.ready &&
                                    out.cloud == if Applied(calls.start) then w.cloud[id := w.cloud[id].(status := Starting)] else w.cloud)
            && (w.saved.providerID == ProviderID(id) ==> out.saved.instanceState == Some(status))
  {
  }

  // ----- What is persisted, and in which order -----

  /** The provider ID follows the instance ID: it is only ever set to that of the instance that is
      persisted. A server made here is started only once both are persisted, and none is made or
      started before the finalizer is. */
  ghost predicate InOrder(before: World, after: World, newID: Id) {
    && (after.saved.providerID == before.saved.providerID || after.saved.providerID == ProviderID(after.saved.instanceID))
    && (newID in after.cloud && newID !in before.cloud && !after.cloud[newID].status.Stopped? ==>
          after.saved.instanceID == newID && after.saved.providerID == ProviderID(newID))
    && (after.cloud != before.cloud ==> after.saved.finalizer)
  }

  lemma FollowInOrder(w: World, c: Machine, id: Id, calls: Calls)
    requires id in w.cloud && c.instanceID == w.saved.instanceID == id && w.saved.finalizer && c.finalizer
    ensures var out := Follow(w, c, id, calls);
            out.saved.providerID == w.saved.providerID && out.saved.instanceID == id && out.saved.finalizer && out.cloud.Keys == w.cloud.Keys
  {
  }

  lemma ObserveInOrder(w: World, c: Machine, id: Id, calls: Calls)
    requires id in w.cloud && c.instanceID == w.saved.instanceID == id && w.saved.finalizer && c.finalizer
    ensures var out := Observe(w, c, id, calls);
            && out.saved.instanceID == id && out.saved.finalizer && out.cloud.Keys == w.cloud.Keys
            && (out.saved.providerID == w.saved.providerID || out.saved.providerID == ProviderID(id))
  {
    var (w1, c1, go) := FixProvider(w, c.(instanceState := Some(w.cloud[id].status)), id, calls.provider);
    FollowInOrder(w1, c1, id, calls);
  }

  lemma BindInOrder(w: World, c: Machine, id: Id, calls: Calls)
    requires id in w.cloud && w.saved.finalizer
    ensures var (w1, go) := Bind(w, c, id, calls);
            && w1.cloud == w.cloud && w1.saved.finalizer
            && (w1.saved.providerID == w.saved.providerID || (w1.saved.providerID == ProviderID(id) && w1.saved.instanceID == id))
            && (go ==> w1.saved.instanceID == id && w1.saved.providerID == ProviderID(id))
  {
  }

  lemma BoundInOrder(w: World, c: Machine, id: Id, calls: Calls)
    requires id in w.cloud && w.saved.finalizer && calls.newID !in w.cloud
    ensures var (w1, go) := Bind(w, c, id, calls);
            InOrder(w, w1, calls.newID) && (go ==> InOrder(w, Observe(w1, w1.saved, id, calls), calls.newID))
  {
    var (w1, go) := Bind(w, c, id, calls);
    BindInOrder(w, c, id, calls);
    if go { ObserveInOrder(w1, w1.saved, id, calls); }
  }

  lemma AdoptInOrder(w: World, c: Machine, calls: Calls)
    requires w.saved.finalizer && calls.newID !in w.cloud
    ensures InOrder(w, Adopt(w, c, calls), calls.newID)
  {
    var found := Find(w.cloud, calls.listing, c.name, c.uid);
    if found.Some? {
      if found.value in w.cloud { BoundInOrder(w, c, found.value, calls); }
    } else {
      var w1 := w.(cloud := w.cloud[calls.newID := Server(c.name, c.uid, Stopped, true)]);
      BindInOrder(w1, c, calls.newID, calls);
    }
  }

  lemma HealInOrder(w: World, c: Machine, calls: Calls)
    requires w.saved.finalizer && c.finalizer && calls.newID !in w.cloud
    ensures InOrder(w, Heal(w, c, calls), calls.newID)
  {
    var found := Find(w.cloud, calls.listing, c.name, c.uid);
    if found.Some? && found.value in w.cloud { BoundInOrder(w, c, found.value, calls); }
  }

  /** In every reconcile, with any failures, misread errors, lost replies and crashes. */
  lemma ReconcileInOrder(w: World, calls: Calls)
    requires calls.newID !in w.cloud
    ensures InOrder(w, Reconcile(w, calls), calls.newID)
  {
    var w0 := if w.saved.finalizer then w else SaveSpec(w, w.saved.(finalizer := true), calls.finalizer);
    if w0.saved.finalizer {
      var c := w0.saved;
      var look := Look(w0.cloud, c.instanceID, calls.get);
      if c.instanceID == "" {
        AdoptInOrder(w0, c, calls);
      } else if look.ReadGone? {
        var c1 := c.(instanceID := "", instanceState := None);
        AdoptInOrder(SaveStatus(w0, c1, calls.clear), c1, calls);
      } else if look.ReadDenied? {
        HealInOrder(w0, c, calls);
      } else if look.Truthful? {
        ObserveInOrder(w0, c, c.instanceID, calls);
      }
    }
  }

  // ----- What a failure stops -----

  /** A server is made only when the find went through and found none, the bootstrap data is there and the
      creation was accepted. */
  lemma CreatesOnlyWhenReady(w: World, calls: Calls)
    requires calls.newID !in w.cloud && calls.newID in Reconcile(w, calls).cloud
    ensures calls.find.Ok? && Find(w.cloud, calls.listing, w.saved.name, w.saved.uid).None?
    ensures calls.bootstrap && Applied(calls.create)
  {
    var w0 := if w.saved.finalizer then w else SaveSpec(w, w.saved.(finalizer := true), calls.finalizer);
    var c := w0.saved;
    var look := Look(w0.cloud, c.instanceID, calls.get);
    if c.instanceID == "" {
      AdoptCreates(w0, c, calls);
    } else if look.ReadGone? {
      var c1 := c.(instanceID := "", instanceState := None);
      AdoptCreates(SaveStatus(w0, c1, calls.clear), c1, calls);
    } else if look.ReadDenied? {
      HealCreatesNothing(w0, c, calls);
    } else if look.Truthful? {
      ObserveInOrder(w0, c, c.instanceID, calls);
    }
  }

  lemma AdoptCreates(w: World, c: Machine, calls: Calls)
    requires w.saved.finalizer && calls.newID !in w.cloud && calls.newID in Adopt(w, c, calls).cloud
    ensures calls.find.Ok? && Find(w.cloud, calls.listing, c.name, c.uid).None? && calls.bootstrap && Applied(calls.create)
  {
    var found := Find(w.cloud, calls.listing, c.name, c.uid);
    if calls.find.Ok? && found.Some? && found.value in w.cloud { BoundCreatesNothing(w, c, found.value, calls); }
  }

  lemma BoundCreatesNothing(w: World, c: Machine, id: Id, calls: Calls)
    requires id in w.cloud && w.saved.finalizer
    ensures var (w1, go) := Bind(w, c, id, calls);
            w1.cloud.Keys == w.cloud.Keys && (go ==> Observe(w1, w1.saved, id, calls).cloud.Keys == w.cloud.Keys)
  {
    var (w1, go) := Bind(w, c, id, calls);
    BindInOrder(w, c, id, calls);
    if go { ObserveInOrder(w1, w1.saved, id, calls); }
  }

  lemma HealCreatesNothing(w: World, c: Machine, calls: Calls)
    requires w.saved.finalizer
    ensures Heal(w, c, calls).cloud.Keys == w.cloud.Keys
  {
    var found := Find(w.cloud, calls.listing, c.name, c.uid);
    if found.Some? && found.value in w.cloud { BoundCreatesNothing(w, c, found.value, calls); }
  }

  /** A GET that cannot be read, and a find that fails for a machine without an instance, change nothing. */
  lemma UnreadableChangesNothing(w: World, calls: Calls)
    requires w.saved.finalizer
    ensures w.saved.instanceID != "" && calls.get.Unreadable? ==> Reconcile(w, calls) == w
    ensures w.saved.instanceID == "" && !calls.find.Ok? ==> Reconcile(w, calls) == w
  {
  }

  /** For an instance that is seen as it is: if a wrong provider ID cannot be corrected, or the reconcile
      crashes before the state is written, then neither readiness nor state is reported and no server is
      started. */
  lemma FailedWriteStops(w: World, calls: Calls)
    requires var id := w.saved.instanceID; id != "" && id in w.cloud && w.cloud[id].accessible && calls.get.Truthful?
    requires w.saved.finalizer
    requires (w.saved.providerID != ProviderID(w.saved.instanceID) && !calls.provider.Ok?) || calls.state.Crash?
    ensures var out := Reconcile(w, calls);
            out.cloud == w.cloud && out.saved.ready == w.saved.ready && out.saved.instanceState == w.saved.instanceState
  {
  }

  /** An instance that belongs to another user, and for which no own server is found or can be looked for, is
      forgotten, so that the next reconcile makes a new one; nothing in the cloud changes. */
  lemma OrphanIsForgotten(w: World, calls: Calls)
    requires w.saved.finalizer && w.saved.instanceID != "" && calls.get.ReadDenied? && !calls.find.Crash?
    requires calls.find.Ok? ==> Find(w.cloud, calls.listing, w.saved.name, w.saved.uid).None?
    ensures var out := Reconcile(w, calls);
            && out.cloud == w.cloud && out.saved.ready == w.saved.ready && out.saved.providerID == w.saved.providerID
            && (out.saved.instanceID == if Applied(calls.clear) then "" else w.saved.instanceID)
            && (Applied(calls.clear) ==> out.saved.instanceState == None)
  {
  }

  /** A server that is gone is replaced in the same reconcile, even if clearing its ID could not be
      persisted. */
  lemma VanishedIsReplacedAtOnce(w: World, calls: Calls)
    requires w.saved.finalizer && w.saved.instanceID != "" && w.saved.instanceID !in w.cloud && calls.get.Truthful?
    requires !calls.clear.Crash? && calls.find.Ok? && Find(w.cloud, calls.listing, w.saved.name, w.saved.uid).None?
    requires calls.bootstrap && calls.create.Ok? && calls.bindStatus.Ok? && calls.bindSpec.Ok?
    ensures var out := Reconcile(w, calls);
            && out.saved.instanceID == calls.newID && out.saved.instanceState == Some(Stopped)
            && out.saved.providerID == "cloudsigma://" + calls.newID
            && calls.newID in out.cloud && out.cloud[calls.newID].name == w.saved.name && out.cloud[calls.newID].uid == w.saved.uid
            && (out.cloud[calls.newID].status.Starting? <==> Applied(calls.start))
  {
  }

  // ----- Finding and naming servers -----

  /** The exact outcome of a find over a consistent list: a server of the machine's UID if there is one,
      else one of its name if there is one, else none. */
  lemma FindIff(cloud: map<Id, Server>, calls: Calls, used: set<Id>, name: string, uid: Id)
    requires Consistent(cloud, calls, used) && uid != ""
    ensures var r := Find(cloud, calls.listing, name, uid);
            if exists id :: id in cloud && cloud[id].accessible && cloud[id].uid == uid
            then r.Some? && r.value in cloud && cloud[r.value].uid == uid
            else if exists id :: id in cloud && cloud[id].accessible && cloud[id].name == name
            then r.Some? && r.value in cloud && cloud[r.value].name == name
            else r.None?
  {
    assert forall id :: id in cloud && cloud[id].accessible ==> id in calls.listing;
  }

  /** The provider ID that the machine controller writes is the one the load balancer controller reads. */
  lemma ProviderRoundTrip(id: Id)
    ensures Controller.NodeUUID(ProviderID(id)) == id
  {
    assert Controller.PROVIDER_PREFIX == "cloudsigma://";
    assert ProviderID(id)[..13] == Controller.PROVIDER_PREFIX;
  }
}

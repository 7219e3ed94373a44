/** With calls that succeed, the machine reconciler settles, and then changes nothing. */
module Convergence {
  import opened Base
  import opened Machine

  /** Between two reconciles, servers that were starting run and servers that were stopping stop. */
  function Settle(cloud: map<Id, Server>): map<Id, Server> {
    map id | id in cloud :: cloud[id].(status := match cloud[id].status
                                                 case Starting => Running
                                                 case Stopping => Stopped
                                                 case s => s)
  }

  predicate AllOk(calls: Calls) {
    && calls.finalizer.Ok? && calls.get.Truthful? && calls.find.Ok? && calls.clear.Ok? && calls.bindStatus.Ok?
    && calls.bindSpec.Ok? && calls.bootstrap && calls.create.Ok? && calls.provider.Ok? && calls.state.Ok?
    && calls.start.Ok? && calls.ready.Ok?
  }

  function Round(w: World, calls: Calls): World {
    Reconcile(w.(cloud := Settle(w.cloud)), calls)
  }

  /** No server is stuck outside the start/stop cycle. */
  ghost predicate Healthy(w: World) {
    forall id :: id in w.cloud ==> !w.cloud[id].status.Unavailable?
  }

  /** Ready, with instance ID and provider ID naming the same live server. */
  predicate Converged(w: World) {
    var m := w.saved;
    && m.instanceID != "" && m.instanceID in w.cloud && w.cloud[m.instanceID].accessible
    && w.cloud[m.instanceID].status.Running?
    && m.providerID == ProviderID(m.instanceID)
    && m.ready && m.instanceState == Some(Running) && m.finalizer
  }

  /** How far a state is from convergence: orphaned behind a 403, without a server, stopped, running
      under a wrong provider ID, running but not reported, converged. */
  function Rank(w: World): nat {
    var m, cloud := w.saved, Settle(w.cloud);
    if m.instanceID == "" || m.instanceID !in cloud then 4
    else if !cloud[m.instanceID].accessible then 5
    else if !cloud[m.instanceID].status.Running? then 3
    else if m.providerID != ProviderID(m.instanceID) then 2
    else if !m.ready || m.instanceState != Some(Running) || !m.finalizer then 1
    else 0
  }

  lemma ObserveRank(w: World, c: Machine, id: Id, calls: Calls)
    requires id in w.cloud && id != "" && w.cloud[id].accessible && c == w.saved && c.instanceID == id && c.finalizer
    requires w.cloud[id].status in {Running, Stopped} && AllOk(calls)
    ensures var out := Observe(w, c, id, calls);
            && out.saved.instanceID == id && id in out.cloud && out.cloud[id].accessible && out.saved.finalizer
            && out.saved.providerID == ProviderID(id)
            && (w.cloud[id].status.Stopped? ==> out.cloud[id].status.Starting?)
            && (w.cloud[id].status.Running? ==>
                  out.cloud == w.cloud && out.saved.ready
                  && (c.providerID == ProviderID(id) ==> out.saved.instanceState == Some(Running)))
  {
  }

  lemma ObserveProgress(w: World, c: Machine, id: Id, calls: Calls)
    requires id in w.cloud && id != "" && w.cloud[id].accessible && c == w.saved && c.instanceID == id && c.finalizer
    requires w.cloud[id].status in {Running, Stopped} && AllOk(calls)
    ensures Rank(Observe(w, c, id, calls)) <= 1
    ensures w.cloud[id].status.Running? && c.providerID == ProviderID(id) ==> Rank(Observe(w, c, id, calls)) == 0
  {
    ObserveRank(w, c, id, calls);
  }

  /** A machine without an instance is bound to a server by the next reconcile. */
  lemma AdoptProgress(w: World, c: Machine, calls: Calls, used: set<Id>)
    requires AllOk(calls) && Consistent(w.cloud, calls, used) && c.uid != "" && "" !in w.cloud
    requires w.saved.finalizer && c == w.saved && c.instanceID == ""
    requires forall id :: id in w.cloud ==> w.cloud[id].status in {Running, Stopped}
    ensures Rank(Adopt(w, c, calls)) <= 1
  {
    FindFacts(w.cloud, calls, used, c.name, c.uid);
    var found := Find(w.cloud, calls.listing, c.name, c.uid);
    if found.Some? {
      var w1 := Bind(w, c, found.value, calls).0;
      ObserveProgress(w1, w1.saved, found.value, calls);
    } else {
      ProvisionRank(w, c, calls);
    }
  }

  lemma ProvisionRank(w: World, c: Machine, calls: Calls)
    requires AllOk(calls) && calls.newID !in w.cloud && calls.newID != "" && w.saved.finalizer && c == w.saved
    ensures Rank(Provision(w, c, calls)) <= 1
  {
    var out := Provision(w, c, calls);
    assert out.saved.instanceID == calls.newID && out.saved.providerID == ProviderID(calls.newID);
    assert calls.newID in out.cloud && out.cloud[calls.newID].status.Starting? && out.cloud[calls.newID].accessible;
  }

  /** Every reconcile of a state that has not converged brings it strictly closer. */
  lemma RoundProgress(w: World, calls: Calls, used: set<Id>)
    requires AllOk(calls) && Consistent(w.cloud, calls, used) && w.saved.uid != "" && Healthy(w) && "" !in w.cloud
    requires Rank(w) > 0
    ensures Rank(Round(w, calls)) < Rank(w)
  {
    var v := w.(cloud := Settle(w.cloud));
    assert forall id :: id in v.cloud ==> v.cloud[id].status in {Running, Stopped};
    var w0 := if v.saved.finalizer then v else SaveSpec(v, v.saved.(finalizer := true), calls.finalizer);
    var c := w0.saved;
    if c.instanceID == "" {
      AdoptProgress(w0, c, calls, used);
    } else if c.instanceID !in w0.cloud {
      var c1 := c.(instanceID := "", instanceState := None);
      var w1 := SaveStatus(w0, c1, calls.clear);
      AdoptProgress(w1, c1, calls, used);
    } else if !w0.cloud[c.instanceID].accessible {
      HealProgress(w0, c, calls, used);
    } else {
      ObserveProgress(w0, c, c.instanceID, calls);
    }
  }

  lemma HealProgress(w: World, c: Machine, calls: Calls, used: set<Id>)
    requires AllOk(calls) && Consistent(w.cloud, calls, used) && c.uid != "" && "" !in w.cloud
    requires w.saved.finalizer && c == w.saved
    requires forall id :: id in w.cloud ==> w.cloud[id].status in {Running, Stopped}
    ensures Rank(Heal(w, c, calls)) <= 4
  {
    FindFacts(w.cloud, calls, used, c.name, c.uid);
    var found := Find(w.cloud, calls.listing, c.name, c.uid);
    if found.Some? {
      var w1 := Bind(w, c, found.value, calls).0;
      ObserveProgress(w1, w1.saved, found.value, calls);
    }
  }

  /** Rank 0 is convergence, as far as a settled cloud goes, and a converged state is a fixed point. */
  lemma ConvergedStays(w: World, calls: Calls)
    requires AllOk(calls) && Rank(w) == 0
    ensures Converged(w.(cloud := Settle(w.cloud)))
    ensures Round(w, calls) == w.(cloud := Settle(w.cloud))
    ensures Rank(Round(w, calls)) == 0
  {
    assert Settle(Settle(w.cloud)) == Settle(w.cloud);
  }

  function Rounds(w: World, calls: seq<Calls>): World {
    if calls == [] then w else Round(Rounds(w, calls[..|calls| - 1]), calls[|calls| - 1])
  }

  /** The circumstances in which reconciles succeed, along a whole sequence of them. */
  ghost predicate Favourable(w: World, calls: seq<Calls>) {
    forall i :: 0 <= i < |calls| ==> FavourableNow(Rounds(w, calls[..i]), calls[i])
  }

  ghost predicate FavourableNow(v: World, calls: Calls) {
    AllOk(calls) && Consistent(v.cloud, calls, {}) && v.saved.uid != "" && Healthy(v) && "" !in v.cloud
  }

  lemma FavourableFront(w: World, calls: seq<Calls>)
    requires Favourable(w, calls) && calls != []
    ensures var n := |calls| - 1; Favourable(w, calls[..n]) && FavourableNow(Rounds(w, calls[..n]), calls[n])
  {
    var n := |calls| - 1;
    assert forall i :: 0 <= i < n ==> calls[..n][..i] == calls[..i];
  }

  lemma {:induction false} RankFalls(w: World, calls: seq<Calls>)
    requires Favourable(w, calls)
    ensures Rank(Rounds(w, calls)) <= if |calls| <= Rank(w) then Rank(w) - |calls| else 0
  {
    if calls != [] {
      var n := |calls| - 1;
      FavourableFront(w, calls);
      RankFalls(w, calls[..n]);
      var v := Rounds(w, calls[..n]);
      if Rank(v) > 0 { RoundProgress(v, calls[n], {}); } else { ConvergedStays(v, calls[n]); }
    }
  }

  /** From every persisted state, five reconciles with calls that succeed reach convergence, and
      every further one changes nothing. */
  lemma Converges(w: World, calls: seq<Calls>, more: Calls)
    requires Favourable(w, calls) && |calls| >= 5 && AllOk(more)
    ensures var out := Rounds(w, calls);
            Converged(out.(cloud := Settle(out.cloud))) && Round(out, more) == out.(cloud := Settle(out.cloud))
  {
    RankFalls(w, calls);
    ConvergedStays(Rounds(w, calls), more);
  }
}

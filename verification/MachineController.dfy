/** The machine reconciler as it runs: it assigns the fields of a working copy and persists them
    with separate writes, between calls to the cloud. */
module MachineController {
  import opened Base
  import opened Machine

  class MachineReconciler {
    /** The persisted object, the user's servers, and the working copy. */
    var saved: Machine
    var cloud: map<Id, Server>
    var copy: Machine

    ghost function State(): World
      reads this
    {
      World(saved, cloud)
    }

    constructor (saved: Machine, cloud: map<Id, Server>)
      ensures State() == World(saved, cloud)
    {
      this.saved, this.cloud, copy := saved, cloud, saved;
    }

    /** Status().Update; the answer replaces the working copy. */
    method UpdateStatus(call: Call) returns (ok: bool)
      modifies this`saved, this`copy
      ensures State() == SaveStatus(old(State()), old(copy), call)
      ensures ok <==> call.Ok?
      ensures copy == if ok then saved else old(copy)
    {
      if Applied(call) {
        saved := saved.(instanceID := copy.instanceID, instanceState := copy.instanceState, ready := copy.ready);
      }
      ok := call.Ok?;
      if ok { copy := saved; }
    }

    /** Update of metadata and spec; the answer replaces the working copy. */
    method UpdateSpec(call: Call) returns (ok: bool)
      modifies this`saved, this`copy
      ensures State() == SaveSpec(old(State()), old(copy), call)
      ensures ok <==> call.Ok?
      ensures copy == if ok then saved else old(copy)
    {
      if Applied(call) { saved := saved.(finalizer := copy.finalizer, providerID := copy.providerID); }
      ok := call.Ok?;
      if ok { copy := saved; }
    }

    method Start(id: Id, call: Call)
      requires id in cloud
      modifies this`cloud
      ensures State() == StartServer(old(State()), id, call)
    {
      if Applied(call) { cloud := cloud[id := cloud[id].(status := Starting)]; }
    }

    /** FindServerByNameOrMeta over the listed servers: first by metadata, then by name. */
    method FindServerByNameOrMeta(listing: seq<Id>, name: string, uid: Id) returns (found: Option<Id>)
      ensures found == Find(cloud, listing, name, uid)
    {
      if uid != "" {
        for i := 0 to |listing|
          invariant FindUID(cloud, listing, uid) == FindUID(cloud, listing[i..], uid)
        {
          if listing[i] in cloud && cloud[listing[i]].uid == uid { return Some(listing[i]); }
        }
      }
      for i := 0 to |listing|
        invariant FindName(cloud, listing, name) == FindName(cloud, listing[i..], name)
      {
        if listing[i] in cloud && cloud[listing[i]].name == name { return Some(listing[i]); }
      }
      return None;
    }

    /** Status first, so that the instance is not created twice; then the provider ID. */
    method BindTo(id: Id, calls: Calls) returns (go: bool)
      requires id in cloud
      modifies this`saved, this`copy
      ensures (State(), go) == Bind(old(State()), old(copy), id, calls)
      ensures go ==> copy == saved
    {
      copy := copy.(instanceID := id, instanceState := Some(cloud[id].status));
      go := UpdateStatus(calls.bindStatus);
      if !go { return; }
      copy := copy.(providerID := ProviderID(id));
      go := UpdateSpec(calls.bindSpec);
    }

    method ObserveServer(id: Id, calls: Calls)
      requires id in cloud
      modifies this
      ensures State() == Observe(old(State()), old(copy), id, calls)
    {
      var seen := cloud[id].status;
      copy := copy.(instanceState := Some(seen));
      if copy.providerID != ProviderID(id) {
        copy := copy.(providerID := ProviderID(id));
        var ok := UpdateSpec(calls.provider);
        if !ok { return; }
      }
      var ok := UpdateStatus(calls.state);
      if calls.state.Crash? { return; }
      if seen.Stopped? {
        Start(id, calls.start);
        return;
      }
      copy := copy.(ready := seen.Running?);
      ok := UpdateStatus(calls.ready);
    }

    method CreateAndBind(calls: Calls)
      modifies this
      ensures State() == Provision(old(State()), old(copy), calls)
    {
      if !calls.bootstrap || !Applied(calls.create) { return; }
      cloud := cloud[calls.newID := Server(copy.name, copy.uid, Stopped, true)];
      if !calls.create.Ok? { return; }
      var go := BindTo(calls.newID, calls);
      if go { Start(calls.newID, calls.start); }
    }

    /** The branch for a machine without an instance ID. */
    method AdoptOrCreate(calls: Calls)
      modifies this
      ensures State() == Adopt(old(State()), old(copy), calls)
    {
      if !calls.find.Ok? { return; }
      var found := FindServerByNameOrMeta(calls.listing, copy.name, copy.uid);
      if found.None? {
        CreateAndBind(calls);
        return;
      }
      if found.value !in cloud { return; }
      var go := BindTo(found.value, calls);
      if go { ObserveServer(found.value, calls); }
    }

    /** The branch for an instance that answers 403. */
    method HealOrphan(calls: Calls)
      modifies this
      ensures State() == Heal(old(State()), old(copy), calls)
    {
      if calls.find.Crash? { return; }
      if calls.find.Ok? {
        var found := FindServerByNameOrMeta(calls.listing, copy.name, copy.uid);
        if found.Some? && found.value in cloud {
          var go := BindTo(found.value, calls);
          if go { ObserveServer(found.value, calls); }
          return;
        }
      }
      copy := copy.(instanceID := "", instanceState := None);
      var ok := UpdateStatus(calls.clear);
    }

    /** reconcileNormal, on a copy just read. */
    method ReconcileNormal(calls: Calls)
      modifies this
      ensures State() == Reconcile(old(State()), calls)
    {
      copy := saved;
      if !copy.finalizer {
        copy := copy.(finalizer := true);
        var ok := UpdateSpec(calls.finalizer);
        if !ok { return; }
      }
      if copy.instanceID == "" {
        AdoptOrCreate(calls);
        return;
      }
      match Look(cloud, copy.instanceID, calls.get) {
        case Unreadable => return;
        case Truthful =>
          ObserveServer(copy.instanceID, calls);
          return;
        case ReadDenied =>
          HealOrphan(calls);
          return;
        case ReadGone =>
      }
      copy := copy.(instanceID := "", instanceState := None);
      var ok := UpdateStatus(calls.clear);
      if calls.clear.Crash? { return; }
      AdoptOrCreate(calls);
    }
  }
}

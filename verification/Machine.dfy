/** The machine reconciler: one persisted object, one cloud, and remote calls that fail or crash. */
module Machine {
  import opened Base

  datatype Status = Running | Stopped | Starting | Stopping | Unavailable

  /** A server of the account; `uid` is its machine-uid metadata. `accessible` says whether the
      impersonated user may see it: others answer 403 and are missing from the list. */
  datatype Server = Server(name: string, uid: Id, status: Status, accessible: bool)

  /** The persisted object: metadata and spec (finalizer, providerID) and status (the rest). */
  datatype Machine = Machine(name: string, uid: Id, finalizer: bool, providerID: string,
                             instanceID: Id, instanceState: Option<Status>, ready: bool)

  datatype World = World(saved: Machine, cloud: map<Id, Server>)

  /** How a call ends. `Lost` took effect but answered with an error; `Crash` ends the reconcile
      before the call, so a crash after a call is a crash before the next one. */
  datatype Call = Ok | Err | Lost | Crash

  /** How GetServer's answer is read. `Truthful` is what the API knows: the server, 404 or 403. An error
      is told apart by its text, so it can read as 404 or 403 whatever the truth is. */
  datatype Seen = Truthful | ReadGone | ReadDenied | Unreadable

  function Look(cloud: map<Id, Server>, id: Id, seen: Seen): (r: Seen)
    ensures r.Truthful? ==> id in cloud && cloud[id].accessible
  {
    if !seen.Truthful? then seen
    else if id !in cloud then ReadGone
    else if !cloud[id].accessible then ReadDenied
    else Truthful
  }

  /** The answers of one reconcile; `listing` is the order in which the API lists the servers and
      `newID` the UUID of a server created now. */
  datatype Calls = Calls(finalizer: Call, get: Seen, find: Call, listing: seq<Id>, clear: Call, bindStatus: Call,
                         bindSpec: Call, bootstrap: bool, create: Call, newID: Id, provider: Call, state: Call,
                         start: Call, ready: Call)

  predicate Applied(call: Call) { call.Ok? || call.Lost? }

  function ProviderID(id: Id): string { "cloudsigma://" + id }

  /** Status().Update: the status part of the working copy `c` is persisted. */
  function SaveStatus(w: World, c: Machine, call: Call): World {
    if Applied(call)
    then w.(saved := w.saved.(instanceID := c.instanceID, instanceState := c.instanceState, ready := c.ready)) else w
  }

  /** Update: metadata and spec are persisted. Its answer replaces the working copy, status included. */
  function SaveSpec(w: World, c: Machine, call: Call): World {
    if Applied(call) then w.(saved := w.saved.(finalizer := c.finalizer, providerID := c.providerID)) else w
  }

  function FindUID(cloud: map<Id, Server>, listing: seq<Id>, uid: Id): (r: Option<Id>)
    ensures r.Some? ==> r.value in listing && r.value in cloud && cloud[r.value].uid == uid
    ensures r.None? ==> forall id :: id in listing && id in cloud ==> cloud[id].uid != uid
  {
    if listing == [] then None
    else if listing[0] in cloud && cloud[listing[0]].uid == uid then Some(listing[0])
    else
      assert forall id :: id in listing ==> id == listing[0] || id in listing[1..];
      FindUID(cloud, listing[1..], uid)
  }

  function FindName(cloud: map<Id, Server>, listing: seq<Id>, name: string): (r: Option<Id>)
    ensures r.Some? ==> r.value in listing && r.value in cloud && cloud[r.value].name == name
    ensures r.None? ==> forall id :: id in listing && id in cloud ==> cloud[id].name != name
  {
    if listing == [] then None
    else if listing[0] in cloud && cloud[listing[0]].name == name then Some(listing[0])
    else
      assert forall id :: id in listing ==> id == listing[0] || id in listing[1..];
      FindName(cloud, listing[1..], name)
  }

  /** FindServerByNameOrMeta: metadata first, then the name. */
  function Find(cloud: map<Id, Server>, listing: seq<Id>, name: string, uid: Id): Option<Id> {
    var byUID := if uid == "" then None else FindUID(cloud, listing, uid);
    if byUID.Some? then byUID else FindName(cloud, listing, name)
  }

  /** Write the instance ID to the status, then the provider ID to the spec. The Boolean says
      whether the reconcile goes on. */
  function Bind(w: World, c: Machine, id: Id, calls: Calls): (World, bool)
    requires id in w.cloud
  {
    var w1 := SaveStatus(w, c.(instanceID := id, instanceState := Some(w.cloud[id].status)), calls.bindStatus);
    if !calls.bindStatus.Ok? then (w1, false) else
    (SaveSpec(w1, w1.saved.(providerID := ProviderID(id)), calls.bindSpec), calls.bindSpec.Ok?)
  }

  function StartServer(w: World, id: Id, call: Call): World
    requires id in w.cloud
  {
    if Applied(call) then w.(cloud := w.cloud[id := w.cloud[id].(status := Starting)]) else w
  }

  /** Correct a wrong provider ID. Returns the working copy that is left and whether to go on. */
  function FixProvider(w: World, c: Machine, id: Id, call: Call): (World, Machine, bool) {
    if c.providerID == ProviderID(id) then (w, c, true) else
    var w1 := SaveSpec(w, c.(providerID := ProviderID(id)), call);
    (w1, w1.saved, call.Ok?)
  }

  /** Report the server's state, start it if it is stopped, and set readiness otherwise. */
  function Follow(w: World, c: Machine, id: Id, calls: Calls): World
    requires id in w.cloud
  {
    var seen := w.cloud[id].status;
    var w1 := SaveStatus(w, c, calls.state);
    if calls.state.Crash? then w1
    else if seen.Stopped? then StartServer(w1, id, calls.start)
    else SaveStatus(w1, (if calls.state.Ok? then w1.saved else c).(ready := seen.Running?), calls.ready)
  }

  /** The part of the reconcile that looks after a server that exists. */
  function Observe(w: World, c: Machine, id: Id, calls: Calls): World
    requires id in w.cloud
  {
    var (w1, c1, go) := FixProvider(w, c.(instanceState := Some(w.cloud[id].status)), id, calls.provider);
    if go then Follow(w1, c1, id, calls) else w1
  }

  /** Create a server, bind it and start it. */
  function Provision(w: World, c: Machine, calls: Calls): World {
    if !calls.bootstrap || !Applied(calls.create) then w else
    var w1 := w.(cloud := w.cloud[calls.newID := Server(c.name, c.uid, Stopped, true)]);
    if !calls.create.Ok? then w1 else
    var (w2, go) := Bind(w1, c, calls.newID, calls);
    if go then StartServer(w2, calls.newID, calls.start) else w2
  }

  /** The reconcile of a machine without an instance ID. */
  function Adopt(w: World, c: Machine, calls: Calls): World {
    if !calls.find.Ok? then w else
    match Find(w.cloud, calls.listing, c.name, c.uid)
    case None => Provision(w, c, calls)
    case Some(id) =>
      if id !in w.cloud then w else
      var (w1, go) := Bind(w, c, id, calls);
      if go then Observe(w1, w1.saved, id, calls) else w1
  }

  /** The reconcile of a machine whose instance answers 403. */
  function Heal(w: World, c: Machine, calls: Calls): World {
    if calls.find.Crash? then w else
    var found := if calls.find.Ok? then Find(w.cloud, calls.listing, c.name, c.uid) else None;
    if found.Some? && found.value in w.cloud then
      var (w1, go) := Bind(w, c, found.value, calls);
      if go then Observe(w1, w1.saved, found.value, calls) else w1
    else SaveStatus(w, c.(instanceID := "", instanceState := None), calls.clear)
  }

  /** reconcileNormal. */
  function Reconcile(w: World, calls: Calls): World {
    var w0 := if w.saved.finalizer then w else SaveSpec(w, w.saved.(finalizer := true), calls.finalizer);
    if !w.saved.finalizer && !calls.finalizer.Ok? then w0 else
    var c := w0.saved;
    if c.instanceID == "" then Adopt(w0, c, calls)
    else match Look(w0.cloud, c.instanceID, calls.get)
         case Unreadable => w0
         case ReadGone =>
           var c1 := c.(instanceID := "", instanceState := None);
           var w1 := SaveStatus(w0, c1, calls.clear);
           if calls.clear.Crash? then w1 else Adopt(w1, c1, calls)
         case ReadDenied => Heal(w0, c, calls)
         case Truthful => Observe(w0, c, c.instanceID, calls)
  }

  /** The list shows exactly the servers the user may see, and a new server gets an unused UUID. */
  ghost predicate Consistent(cloud: map<Id, Server>, calls: Calls, used: set<Id>) {
    && (forall id :: id in calls.listing <==> id in cloud && cloud[id].accessible)
    && calls.newID !in used && calls.newID !in cloud && calls.newID != ""
  }

  lemma FindFacts(cloud: map<Id, Server>, calls: Calls, used: set<Id>, name: string, uid: Id)
    requires Consistent(cloud, calls, used) && uid != ""
    ensures var r := Find(cloud, calls.listing, name, uid);
            && (r.Some? ==> r.value in cloud && cloud[r.value].accessible
                            && (cloud[r.value].uid == uid || cloud[r.value].name == name))
            && (r.None? ==> forall id :: id in cloud && cloud[id].accessible ==> cloud[id].uid != uid)
  {
    assert forall id :: id in cloud && cloud[id].accessible ==> id in calls.listing;
  }

  // ----- At most one server per machine -----

  /** What one reconcile may do: start servers, create one for a machine that has none, and bind
      the machine to nothing, to what it was bound to, or to an accessible server of its own UID or name. */
  ghost predicate Careful(before: World, after: World, m: Machine, newID: Id) {
    && before.cloud.Keys <= after.cloud.Keys <= before.cloud.Keys + {newID}
    && (forall id :: id in before.cloud ==> after.cloud[id] == before.cloud[id].(status := after.cloud[id].status))
    && (newID in after.cloud && newID !in before.cloud ==>
          && after.cloud[newID].name == m.name && after.cloud[newID].uid == m.uid
          && forall id :: id in before.cloud && before.cloud[id].accessible ==> before.cloud[id].uid != m.uid)
    && after.saved.name == before.saved.name && after.saved.uid == before.saved.uid
    && BoundTo(before, after, m)
  }

  predicate BoundTo(before: World, after: World, m: Machine) {
    var id := after.saved.instanceID;
    id == "" || id == before.saved.instanceID
    || (id in after.cloud && after.cloud[id].accessible && (after.cloud[id].uid == m.uid || after.cloud[id].name == m.name))
  }

  lemma ProvisionCareful(w: World, c: Machine, calls: Calls)
    requires calls.newID !in w.cloud
    requires forall id :: id in w.cloud && w.cloud[id].accessible ==> w.cloud[id].uid != c.uid
    ensures Careful(w, Provision(w, c, calls), c, calls.newID)
  {
    var w1 := w.(cloud := w.cloud[calls.newID := Server(c.name, c.uid, Stopped, true)]);
    BindFacts(w1, c, calls.newID, calls);
  }

  lemma BindFacts(w: World, c: Machine, id: Id, calls: Calls)
    requires id in w.cloud
    ensures var (out, go) := Bind(w, c, id, calls);
            && out.cloud == w.cloud && out.saved.name == w.saved.name && out.saved.uid == w.saved.uid
            && out.saved.instanceID in {w.saved.instanceID, id} && (go ==> out.saved.instanceID == id)
  {
  }

  lemma SaveCareful(w: World, c: Machine, m: Machine, call: Call, newID: Id)
    requires m.instanceID == w.saved.instanceID
    ensures var out := SaveStatus(w, m, call); Careful(w, out, c, newID) && out.saved.instanceID == w.saved.instanceID && out.cloud == w.cloud
  {
  }

  lemma StartCareful(w: World, w1: World, c: Machine, id: Id, call: Call, newID: Id)
    requires id in w.cloud && w1.cloud == w.cloud && Careful(w, w1, c, newID)
    ensures Careful(w, StartServer(w1, id, call), c, newID)
  {
  }

  lemma FollowCareful(w: World, c: Machine, id: Id, calls: Calls)
    requires id in w.cloud && c.instanceID == w.saved.instanceID
    ensures var out := Follow(w, c, id, calls);
            Careful(w, out, c, calls.newID) && out.saved.instanceID == w.saved.instanceID && out.cloud.Keys == w.cloud.Keys
  {
    var w1 := SaveStatus(w, c, calls.state);
    SaveCareful(w, c, c, calls.state, calls.newID);
    StartCareful(w, w1, c, id, calls.start, calls.newID);
  }

  lemma ObserveCareful(w: World, c: Machine, id: Id, calls: Calls)
    requires id in w.cloud && c.instanceID == w.saved.instanceID
    ensures var out := Observe(w, c, id, calls);
            Careful(w, out, c, calls.newID) && out.saved.instanceID == w.saved.instanceID && out.cloud.Keys == w.cloud.Keys
  {
    var (w1, c1, go) := FixProvider(w, c.(instanceState := Some(w.cloud[id].status)), id, calls.provider);
    FollowCareful(w1, c1, id, calls);
  }

  /** Binding to an own server. */
  lemma BindIsCareful(w: World, c: Machine, id: Id, calls: Calls)
    requires id in w.cloud && w.cloud[id].accessible && (w.cloud[id].uid == c.uid || w.cloud[id].name == c.name)
    ensures Careful(w, Bind(w, c, id, calls).0, c, calls.newID)
  {
    BindFacts(w, c, id, calls);
  }

  /** And what is careful about the server it is bound to is so from before. */
  lemma CarefulAfterBind(w: World, w1: World, out: World, c: Machine, c1: Machine, id: Id, newID: Id)
    requires id in w.cloud && w.cloud[id].accessible && (w.cloud[id].uid == c.uid || w.cloud[id].name == c.name)
    requires w1.cloud == w.cloud && w1.saved.name == w.saved.name && w1.saved.uid == w.saved.uid && w1.saved.instanceID == id
    requires Careful(w1, out, c1, newID) && out.saved.instanceID == id && newID !in w.cloud && newID !in out.cloud
    ensures Careful(w, out, c, newID)
  {
  }

  /** Binding to an own server and then observing it. */
  lemma BindCareful(w: World, c: Machine, id: Id, calls: Calls)
    requires id in w.cloud && w.cloud[id].accessible && (w.cloud[id].uid == c.uid || w.cloud[id].name == c.name)
    requires calls.newID !in w.cloud
    ensures var (w1, go) := Bind(w, c, id, calls);
            Careful(w, w1, c, calls.newID) && (go ==> Careful(w, Observe(w1, w1.saved, id, calls), c, calls.newID))
  {
    var (w1, go) := Bind(w, c, id, calls);
    BindIsCareful(w, c, id, calls);
    BindFacts(w, c, id, calls);
    ObserveCareful(w1, w1.saved, id, calls);
    if go { CarefulAfterBind(w, w1, Observe(w1, w1.saved, id, calls), c, w1.saved, id, calls.newID); }
  }

  lemma AdoptCareful(w: World, c: Machine, calls: Calls, used: set<Id>)
    requires Consistent(w.cloud, calls, used) && c.uid != ""
    ensures Careful(w, Adopt(w, c, calls), c, calls.newID)
  {
    FindFacts(w.cloud, calls, used, c.name, c.uid);
    var found := Find(w.cloud, calls.listing, c.name, c.uid);
    if found.Some? { BindCareful(w, c, found.value, calls); } else { ProvisionCareful(w, c, calls); }
  }

  lemma HealCareful(w: World, c: Machine, calls: Calls, used: set<Id>)
    requires Consistent(w.cloud, calls, used) && c.uid != ""
    ensures Careful(w, Heal(w, c, calls), c, calls.newID)
  {
    FindFacts(w.cloud, calls, used, c.name, c.uid);
    var found := Find(w.cloud, calls.listing, c.name, c.uid);
    if found.Some? { BindCareful(w, c, found.value, calls); }
  }

  /** Saving something else first makes no difference. */
  lemma CarefulFrom(w: World, w0: World, out: World, c: Machine, newID: Id)
    requires Careful(w0, out, c, newID)
    requires w0.cloud == w.cloud && w0.saved.name == w.saved.name == c.name && w0.saved.uid == w.saved.uid == c.uid
    requires w0.saved.instanceID in {w.saved.instanceID, ""}
    ensures Careful(w, out, w.saved, newID)
  {
  }

  lemma ReconcileCareful(w: World, calls: Calls, used: set<Id>)
    requires Consistent(w.cloud, calls, used) && w.saved.uid != ""
    ensures Careful(w, Reconcile(w, calls), w.saved, calls.newID)
  {
    var w0 := if w.saved.finalizer then w else SaveSpec(w, w.saved.(finalizer := true), calls.finalizer);
    var c := w0.saved;
    if c.instanceID == "" {
      AdoptCareful(w0, c, calls, used);
      CarefulFrom(w, w0, Adopt(w0, c, calls), c, calls.newID);
    } else if Look(w0.cloud, c.instanceID, calls.get).ReadGone? {
      var c1 := c.(instanceID := "", instanceState := None);
      var w1 := SaveStatus(w0, c1, calls.clear);
      AdoptCareful(w1, c1, calls, used);
      CarefulFrom(w, w1, Adopt(w1, c1, calls), c1, calls.newID);
    } else if Look(w0.cloud, c.instanceID, calls.get).ReadDenied? {
      HealCareful(w0, c, calls, used);
      CarefulFrom(w, w0, Heal(w0, c, calls), c, calls.newID);
    } else if Look(w0.cloud, c.instanceID, calls.get).Truthful? {
      ObserveCareful(w0, c, c.instanceID, calls);
      CarefulFrom(w, w0, Observe(w0, c, c.instanceID, calls), c, calls.newID);
    }
  }

  /** All machines of an account over one cloud. `names` maps the UID of every machine that ever
      was to its name; `made` maps every server UUID ever given out to the UID it was made for. */
  datatype System = System(machines: map<Id, Machine>, cloud: map<Id, Server>, names: map<Id, string>, made: map<Id, Id>)

  /** Machines are keyed by UID and reconciled one at a time. A deletion drops the finalizer and so the
      machine; `deleted` says whether its server was deleted as well. Servers may vanish, change state
      or be handed to another user. */
  datatype Event =
    | Appear(uid: Id, name: string)
    | ReconcileOne(uid: Id, calls: Calls)
    | Delete(uid: Id, deleted: bool)
    | Vanish(server: Id)
    | Revoke(server: Id)
    | Report(server: Id, status: Status)

  function Step(s: System, e: Event): System {
    match e
    case Appear(uid, name) =>
      if uid in s.names || uid == "" then s
      else s.(machines := s.machines[uid := Machine(name, uid, false, "", "", None, false)], names := s.names[uid := name])
    case Delete(uid, deleted) =>
      s.(machines := s.machines - {uid},
         cloud := if deleted && uid in s.machines then s.cloud - {s.machines[uid].instanceID} else s.cloud)
    case Vanish(server) => s.(cloud := s.cloud - {server})
    case Revoke(server) =>
      if server in s.cloud then s.(cloud := s.cloud[server := s.cloud[server].(accessible := false)]) else s
    case Report(server, status) =>
      if server in s.cloud then s.(cloud := s.cloud[server := s.cloud[server].(status := status)]) else s
    case ReconcileOne(uid, calls) =>
      if uid !in s.machines then s else
      var out := Reconcile(World(s.machines[uid], s.cloud), calls);
      s.(machines := s.machines[uid := out.saved], cloud := out.cloud,
         made := if calls.newID in out.cloud && calls.newID !in s.cloud then s.made[calls.newID := uid] else s.made)
  }

  function Run(s: System, es: seq<Event>): System {
    if es == [] then s else Step(Run(s, es[..|es| - 1]), es[|es| - 1])
  }

  /** New machines have names of their own; the list is consistent and UUIDs are not reused. */
  ghost predicate Fair(s: System, e: Event) {
    && (e.Appear? ==> e.name !in s.names.Values)
    && (e.ReconcileOne? ==> Consistent(s.cloud, e.calls, s.made.Keys))
  }

  /** Every server was made for a known machine and no two accessible ones for the same. */
  ghost predicate TidyCloud(s: System) {
    && (forall id :: id in s.cloud ==> ServerKnown(s, id))
    && (forall a, b :: a in s.cloud && b in s.cloud && s.cloud[a].accessible && s.cloud[b].accessible ==>
          s.cloud[a].uid == s.cloud[b].uid ==> a == b)
  }

  predicate ServerKnown(s: System, id: Id)
    requires id in s.cloud
  {
    && id != "" && id in s.made && s.made[id] == s.cloud[id].uid
    && s.cloud[id].uid in s.names && s.names[s.cloud[id].uid] == s.cloud[id].name
  }

  predicate MachineKnown(s: System, u: Id)
    requires u in s.machines
  {
    var m := s.machines[u];
    && u != "" && m.uid == u && u in s.names && s.names[u] == m.name
    && (m.instanceID != "" ==> m.instanceID in s.made && s.made[m.instanceID] == u)
  }

  ghost predicate Tidy(s: System) {
    && Injective(s.names) && TidyCloud(s)
    && (forall u :: u in s.machines ==> MachineKnown(s, u))
  }

  lemma TidyCloudReconcile(s: System, uid: Id, calls: Calls)
    requires Tidy(s) && uid in s.machines && Consistent(s.cloud, calls, s.made.Keys)
    requires Careful(World(s.machines[uid], s.cloud), Reconcile(World(s.machines[uid], s.cloud), calls), s.machines[uid], calls.newID)
    ensures TidyCloud(Step(s, ReconcileOne(uid, calls)))
  {
    var t := Step(s, ReconcileOne(uid, calls));
    assert MachineKnown(s, uid);
    forall id | id in t.cloud ensures ServerKnown(t, id) {
      if id in s.cloud { assert ServerKnown(s, id); }
    }
  }

  lemma TidyReconcile(s: System, uid: Id, calls: Calls)
    requires Tidy(s) && uid in s.machines && Consistent(s.cloud, calls, s.made.Keys)
    ensures Tidy(Step(s, ReconcileOne(uid, calls)))
  {
    var m := s.machines[uid];
    assert MachineKnown(s, uid);
    ReconcileCareful(World(m, s.cloud), calls, s.made.Keys);
    TidyCloudReconcile(s, uid, calls);
    var t := Step(s, ReconcileOne(uid, calls));
    var id := t.machines[uid].instanceID;
    if id in t.cloud { assert ServerKnown(t, id); }
    forall u | u in t.machines ensures MachineKnown(t, u) {
      assert MachineKnown(s, u);
    }
  }

  lemma TidyStep(s: System, e: Event)
    requires Tidy(s) && Fair(s, e)
    ensures Tidy(Step(s, e))
  {
    match e {
      case ReconcileOne(uid, calls) => if uid in s.machines { TidyReconcile(s, uid, calls); }
      case Appear(uid, name) => if uid !in s.names && uid != "" { TidyAppear(s, uid, name); }
      case _ => TidyShrink(s, Step(s, e));
    }
  }

  lemma TidyAppear(s: System, uid: Id, name: string)
    requires Tidy(s) && uid !in s.names && uid != "" && name !in s.names.Values
    ensures Tidy(Step(s, Appear(uid, name)))
  {
    var t := Step(s, Appear(uid, name));
    forall u | u in s.names ensures s.names[u] != name { assert s.names[u] in s.names.Values; }
    forall id | id in t.cloud ensures ServerKnown(t, id) { assert ServerKnown(s, id); }
    forall u | u in t.machines ensures MachineKnown(t, u) { assert u in s.machines ==> MachineKnown(s, u); }
  }

  /** Fewer machines, fewer servers, fewer of them accessible. */
  lemma TidyShrink(s: System, t: System)
    requires Tidy(s) && t.names == s.names && t.made == s.made
    requires forall u :: u in t.machines ==> u in s.machines && t.machines[u] == s.machines[u]
    requires forall id :: id in t.cloud ==>
               id in s.cloud && t.cloud[id].name == s.cloud[id].name && t.cloud[id].uid == s.cloud[id].uid
               && (t.cloud[id].accessible ==> s.cloud[id].accessible)
    ensures Tidy(t)
  {
    forall id | id in t.cloud ensures ServerKnown(t, id) { assert ServerKnown(s, id); }
    forall u | u in t.machines ensures MachineKnown(t, u) { assert MachineKnown(s, u); }
  }

  predicate HasServer(s: System, uid: Id) {
    exists id :: id in s.cloud && s.cloud[id].accessible && s.cloud[id].uid == uid
  }

  /** When a deletion leaves no server behind: the machine had none, or the one bound to it was
      accessible and is deleted. A server that was made but never bound stays. */
  lemma NoServerLeftIff(s: System, uid: Id, deleted: bool)
    requires Tidy(s) && uid in s.machines
    ensures var id := s.machines[uid].instanceID;
            !HasServer(Step(s, Delete(uid, deleted)), uid) <==>
            !HasServer(s, uid) || (deleted && id in s.cloud && s.cloud[id].accessible)
  {
    var id, t := s.machines[uid].instanceID, Step(s, Delete(uid, deleted));
    assert MachineKnown(s, uid);
    if id in s.cloud { assert ServerKnown(s, id); }
    if other :| other in s.cloud && s.cloud[other].accessible && s.cloud[other].uid == uid {
      assert !(deleted && id in s.cloud && s.cloud[id].accessible) ==> other in t.cloud;
    }
  }

  lemma {:induction false} TidyRun(s: System, es: seq<Event>)
    requires Tidy(s) && forall i :: 0 <= i < |es| ==> Fair(Run(s, es[..i]), es[i])
    ensures Tidy(Run(s, es))
  {
    if es != [] {
      var n := |es| - 1;
      assert forall i :: 0 <= i < n ==> es[..n][..i] == es[..i];
      TidyRun(s, es[..n]);
      TidyStep(Run(s, es[..n]), es[n]);
    }
  }

  /** No sequence of crashes, misread errors, failed or lost writes and deletions makes the
      account hold two accessible servers for one machine, or binds two machines to one instance. */
  lemma AtMostOneServer(es: seq<Event>, a: Id, b: Id, u: Id, v: Id)
    requires var s := System(map[], map[], map[], map[]); forall i :: 0 <= i < |es| ==> Fair(Run(s, es[..i]), es[i])
    ensures var t := Run(System(map[], map[], map[], map[]), es);
            && (a in t.cloud && b in t.cloud && t.cloud[a].accessible && t.cloud[b].accessible ==>
                  t.cloud[a].uid == t.cloud[b].uid ==> a == b)
            && (u in t.machines && v in t.machines && t.machines[u].instanceID == t.machines[v].instanceID != "" ==> u == v)
  {
    var s := System(map[], map[], map[], map[]);
    TidyRun(s, es);
    var t := Run(s, es);
    assert u in t.machines ==> MachineKnown(t, u);
    assert v in t.machines ==> MachineKnown(t, v);
  }
}

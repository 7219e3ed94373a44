/** Creating and deleting a server with its cloned drives: what becomes of the account's drives. */
module Servers {
  import opened Base
  import Channels

  datatype Disk = Disk(source: Id, size: int, bootOrder: nat, device: string)
  datatype ServerSpec = ServerSpec(name: string, disks: seq<Disk>)

  /** Where a drive comes from. */
  datatype Drive = Drive(name: string, source: Id, size: int)

  datatype Slot = Slot(bootOrder: nat, channel: string, device: string, drive: Id)

  datatype Account = Account(drives: map<Id, Drive>, servers: map<Id, seq<Slot>>)

  /** How a clone ends: with a ready drive, with an error and no drive, or with an error after the
      drive was made (waiting for it to become ready failed). */
  datatype Clone = Ready(uuid: Id) | NoDrive | Leaked(uuid: Id)

  /** `stuck` are the drives whose deletion fails; `server` is the new UUID, "" if the POST fails. */
  datatype CreateCalls = CreateCalls(clones: seq<Clone>, stuck: set<Id>, server: Id)

  /** The clones that succeed before the first failure. */
  function Successes(spec: ServerSpec, calls: CreateCalls, i: nat): (k: nat)
    requires i <= |spec.disks| == |calls.clones|
    ensures i <= k <= |spec.disks|
    ensures forall j :: i <= j < k ==> calls.clones[j].Ready?
    ensures k < |spec.disks| ==> !calls.clones[k].Ready?
    decreases |spec.disks| - i
  {
    if i < |spec.disks| && calls.clones[i].Ready? then Successes(spec, calls, i + 1) else i
  }

  function DriveFor(spec: ServerSpec, i: nat): Drive
    requires i < |spec.disks|
  {
    Drive(spec.name + "-drive-" + Channels.Dec(i), spec.disks[i].source, spec.disks[i].size)
  }

  /** The drives that the first `n` disks ask for. */
  function Wanted(spec: ServerSpec, n: nat): (ds: seq<Drive>)
    requires n <= |spec.disks|
    ensures |ds| == n && forall i :: 0 <= i < n ==> ds[i] == DriveFor(spec, i)
  {
    seq(n, i requires 0 <= i < n => DriveFor(spec, i))
  }

  /** The UUIDs of the first `n` clones. */
  function UUIDs(calls: CreateCalls, n: nat): (ids: seq<Id>)
    requires n <= |calls.clones| && forall j :: 0 <= j < n ==> calls.clones[j].Ready?
    ensures |ids| == n && forall i :: 0 <= i < n ==> ids[i] == calls.clones[i].uuid
  {
    seq(n, i requires 0 <= i < n => calls.clones[i].uuid)
  }

  function Elements(ids: seq<Id>): set<Id> {
    set d | d in ids
  }

  /** Drives added one after the other. */
  function AddAll(drives: map<Id, Drive>, ids: seq<Id>, ds: seq<Drive>): map<Id, Drive>
    requires |ids| == |ds|
  {
    if ids == [] then drives
    else
      var n := |ids| - 1;
      AddAll(drives, ids[..n], ds[..n])[ids[n] := ds[n]]
  }

  lemma AddAllSnoc(drives: map<Id, Drive>, ids: seq<Id>, ds: seq<Drive>, id: Id, d: Drive)
    requires |ids| == |ds|
    ensures AddAll(drives, ids + [id], ds + [d]) == AddAll(drives, ids, ds)[id := d]
  {
    assert (ids + [id])[..|ids|] == ids && (ds + [d])[..|ds|] == ds;
  }

  function SlotFor(disk: Disk, drive: Id): Slot {
    Slot(disk.bootOrder, "0:" + Channels.Dec(disk.bootOrder), disk.device, drive)
  }

  function Slots(spec: ServerSpec, calls: CreateCalls): seq<Slot>
    requires |calls.clones| == |spec.disks| && forall j :: 0 <= j < |spec.disks| ==> calls.clones[j].Ready?
  {
    seq(|spec.disks|, i requires 0 <= i < |spec.disks| => SlotFor(spec.disks[i], calls.clones[i].uuid))
  }

  /** The drives once cloning has ended: the clones that succeeded and one that leaked. */
  function Cloned(drives: map<Id, Drive>, spec: ServerSpec, calls: CreateCalls): map<Id, Drive>
    requires |calls.clones| == |spec.disks|
  {
    var k := Successes(spec, calls, 0);
    var made := AddAll(drives, UUIDs(calls, k), Wanted(spec, k));
    if k < |spec.disks| && calls.clones[k].Leaked? then made[calls.clones[k].uuid := DriveFor(spec, k)] else made
  }

  function Create(a: Account, spec: ServerSpec, calls: CreateCalls): (Account, Option<Id>)
    requires |calls.clones| == |spec.disks|
  {
    var k := Successes(spec, calls, 0);
    if k < |spec.disks| || calls.server == ""
    then (a.(drives := Cloned(a.drives, spec, calls) - (Elements(UUIDs(calls, k)) - calls.stuck)), None)
    else (Created(a, spec, calls), Some(calls.server))
  }

  /** The account with all clones and the new server. */
  function Created(a: Account, spec: ServerSpec, calls: CreateCalls): Account
    requires |calls.clones| == |spec.disks| && forall j :: 0 <= j < |spec.disks| ==> calls.clones[j].Ready?
  {
    Account(AddAll(a.drives, UUIDs(calls, |spec.disks|), Wanted(spec, |spec.disks|)), a.servers[calls.server := Slots(spec, calls)])
  }

  /** The cloud gives every clone a UUID of its own. */
  ghost predicate FreshClones(a: Account, calls: CreateCalls) {
    && (forall i :: 0 <= i < |calls.clones| && !calls.clones[i].NoDrive? ==> calls.clones[i].uuid !in a.drives)
    && (forall i, j :: 0 <= i < j < |calls.clones| && !calls.clones[i].NoDrive? && !calls.clones[j].NoDrive? ==>
          calls.clones[i].uuid != calls.clones[j].uuid)
  }

  lemma {:induction false} AddAllIs(drives: map<Id, Drive>, ids: seq<Id>, ds: seq<Drive>)
    requires |ids| == |ds| && forall i :: 0 <= i < |ids| ==> ids[i] !in drives
    requires forall i, j :: 0 <= i < j < |ids| ==> ids[i] != ids[j]
    ensures var out := AddAll(drives, ids, ds);
            && out.Keys == drives.Keys + Elements(ids)
            && (forall d :: d in drives ==> out[d] == drives[d])
            && (forall i :: 0 <= i < |ids| ==> ids[i] in out && out[ids[i]] == ds[i])
  {
    if ids != [] {
      var n := |ids| - 1;
      var front := ids[..n];
      AddAllIs(drives, front, ds[..n]);
      var before := AddAll(drives, front, ds[..n]);
      assert Elements(ids) == Elements(front) + {ids[n]};
      assert ids[n] !in before;
      forall i | 0 <= i < n ensures ids[i] in before && before[ids[i]] == ds[i] {
        assert front[i] == ids[i] && ds[..n][i] == ds[i];
      }
    }
  }

  lemma ClonesAdd(a: Account, spec: ServerSpec, calls: CreateCalls, k: nat)
    requires k <= |spec.disks| == |calls.clones| && forall j :: 0 <= j < k ==> calls.clones[j].Ready?
    requires FreshClones(a, calls)
    ensures var ids := UUIDs(calls, k);
            var out := AddAll(a.drives, ids, Wanted(spec, k));
            && out.Keys == a.drives.Keys + Elements(ids) && a.drives.Keys !! Elements(ids)
            && (forall d :: d in a.drives ==> out[d] == a.drives[d])
            && (forall i :: 0 <= i < k ==> ids[i] in out && out[ids[i]] == DriveFor(spec, i))
  {
    AddAllIs(a.drives, UUIDs(calls, k), Wanted(spec, k));
  }

  /** What a failed creation leaves behind: a leaked clone, and the clones whose deletion failed. */
  function Residue(spec: ServerSpec, calls: CreateCalls): set<Id>
    requires |calls.clones| == |spec.disks|
  {
    var k := Successes(spec, calls, 0);
    Elements(UUIDs(calls, k)) * calls.stuck + if k < |spec.disks| && calls.clones[k].Leaked? then {calls.clones[k].uuid} else {}
  }

  /** What cloning adds: the drives that succeeded and one that leaked, all new. */
  lemma ClonedAdds(a: Account, spec: ServerSpec, calls: CreateCalls)
    requires |calls.clones| == |spec.disks| && FreshClones(a, calls)
    ensures var k, all := Successes(spec, calls, 0), Cloned(a.drives, spec, calls);
            var leaked := if k < |spec.disks| && calls.clones[k].Leaked? then {calls.clones[k].uuid} else {};
            && all.Keys == a.drives.Keys + Elements(UUIDs(calls, k)) + leaked
            && a.drives.Keys !! Elements(UUIDs(calls, k)) + leaked && Elements(UUIDs(calls, k)) !! leaked
            && forall d :: d in a.drives ==> all[d] == a.drives[d]
  {
    var k := Successes(spec, calls, 0);
    ClonesAdd(a, spec, calls, k);
    if k < |spec.disks| && calls.clones[k].Leaked? {
      forall i | 0 <= i < k ensures UUIDs(calls, k)[i] != calls.clones[k].uuid {
        assert calls.clones[i].uuid != calls.clones[k].uuid;
      }
    }
  }

  /** Adding drives and taking some of them away again leaves the rest of them. */
  lemma AddedAndRemoved(before: map<Id, Drive>, all: map<Id, Drive>, added: set<Id>, gone: set<Id>)
    requires all.Keys == before.Keys + added && before.Keys !! added && gone <= added
    requires forall d :: d in before ==> all[d] == before[d]
    ensures (all - gone).Keys == before.Keys + (added - gone)
    ensures forall d :: d in before ==> (all - gone)[d] == before[d]
    ensures all - gone == before <==> added - gone == {}
  {
    if added - gone != {} {
      var d :| d in added - gone;
      assert d in all - gone && d !in before;
    } else {
      assert added == (added - gone) + gone;
      forall d ensures d in all - gone <==> d in before { }
      assert (all - gone).Keys == before.Keys;
      forall d | d in before ensures (all - gone)[d] == before[d] { }
    }
  }

  /** A failing creation leaves exactly its residue, so it leaves the account as it was if and
      only if no clone leaked and every rollback deletion went through. */
  lemma FailedCreateConserves(a: Account, spec: ServerSpec, calls: CreateCalls)
    requires |calls.clones| == |spec.disks| && FreshClones(a, calls) && Create(a, spec, calls).1.None?
    ensures var out := Create(a, spec, calls).0;
            && out.servers == a.servers
            && out.drives.Keys == a.drives.Keys + Residue(spec, calls)
            && (forall d :: d in a.drives ==> out.drives[d] == a.drives[d])
            && (out == a <==> Residue(spec, calls) == {})
  {
    var k := Successes(spec, calls, 0);
    var ids := Elements(UUIDs(calls, k));
    var leaked := if k < |spec.disks| && calls.clones[k].Leaked? then {calls.clones[k].uuid} else {};
    ClonedAdds(a, spec, calls);
    AddedAndRemoved(a.drives, Cloned(a.drives, spec, calls), ids + leaked, ids - calls.stuck);
    assert (ids + leaked) - (ids - calls.stuck) == Residue(spec, calls);
  }

  /** A successful creation adds exactly the drives of the new server. */
  lemma CreateAdds(a: Account, spec: ServerSpec, calls: CreateCalls)
    requires |calls.clones| == |spec.disks| && FreshClones(a, calls) && Create(a, spec, calls).1.Some?
    ensures forall j :: 0 <= j < |spec.disks| ==> calls.clones[j].Ready?
    ensures var out := Created(a, spec, calls);
            && Create(a, spec, calls) == (out, Some(calls.server))
            && out.drives.Keys == a.drives.Keys + DrivesOf(Slots(spec, calls))
            && DrivesOf(Slots(spec, calls)) !! a.drives.Keys
            && (forall d :: d in a.drives ==> out.drives[d] == a.drives[d])
  {
    ClonesAdd(a, spec, calls, |spec.disks|);
    SlotDrives(spec, calls);
  }

  /** The exact condition for a creation to succeed. */
  lemma CreateSucceedsIff(a: Account, spec: ServerSpec, calls: CreateCalls)
    requires |calls.clones| == |spec.disks|
    ensures Create(a, spec, calls).1 ==
            if (forall i :: 0 <= i < |spec.disks| ==> calls.clones[i].Ready?) && calls.server != "" then Some(calls.server) else None
  {
  }

  /** One drive per disk, all distinct, attached in disk order: each is a clone of its own disk's source,
      with that disk's size, named after the server and the disk's position, and it is attached with
      that disk's boot order, device and channel. */
  lemma CreatedInOrder(a: Account, spec: ServerSpec, calls: CreateCalls, i: nat, j: nat)
    requires |calls.clones| == |spec.disks| && FreshClones(a, calls) && Create(a, spec, calls).1.Some?
    requires i < |spec.disks| && j < |spec.disks|
    ensures var (out, server) := Create(a, spec, calls);
            && server.value in out.servers
            && var slots, disk := out.servers[server.value], spec.disks[i];
            && |slots| == |spec.disks|
            && slots[i].bootOrder == disk.bootOrder && slots[i].device == disk.device
            && slots[i].channel == "0:" + Channels.Dec(disk.bootOrder)
            && slots[i].drive in out.drives
            && var drive := out.drives[slots[i].drive];
            && drive.source == disk.source && drive.size == disk.size && drive.name == spec.name + "-drive-" + Channels.Dec(i)
            && (slots[i].drive == slots[j].drive <==> i == j)
  {
    ClonesAdd(a, spec, calls, |spec.disks|);
    assert UUIDs(calls, |spec.disks|)[i] == calls.clones[i].uuid;
  }

  lemma SlotDrives(spec: ServerSpec, calls: CreateCalls)
    requires |calls.clones| == |spec.disks| && forall j :: 0 <= j < |spec.disks| ==> calls.clones[j].Ready?
    ensures DrivesOf(Slots(spec, calls)) == Elements(UUIDs(calls, |spec.disks|))
  {
    var slots, ids := Slots(spec, calls), UUIDs(calls, |spec.disks|);
    forall d | d in Elements(ids) ensures d in DrivesOf(slots) {
      var i :| 0 <= i < |ids| && ids[i] == d;
      assert slots[i].drive == d;
    }
  }

  function DrivesOf(slots: seq<Slot>): set<Id> {
    set i | 0 <= i < |slots| :: slots[i].drive
  }

  /** How the first GET of a deletion is read; an error whose text mentions 404 reads as "gone". */
  datatype Seen = Truthful | ReadGone | Unreadable

  datatype DeleteCalls = DeleteCalls(get: Seen, stop: bool, delete: bool, stuck: set<Id>)

  /** Deleting a server deletes every drive in its list. `running` says whether it must be stopped first. */
  function Delete(a: Account, server: Id, running: bool, calls: DeleteCalls): (Account, bool) {
    if calls.get.Unreadable? then (a, false)
    else if server !in a.servers || calls.get.ReadGone? then (a, true)
    else if (running && !calls.stop) || !calls.delete then (a, false)
    else (Account(a.drives - (DrivesOf(a.servers[server]) - calls.stuck), a.servers - {server}), true)
  }

  lemma DrivesOfAppend(s: seq<Slot>, t: seq<Slot>)
    ensures DrivesOf(s + t) == DrivesOf(s) + DrivesOf(t)
  {
    forall d | d in DrivesOf(t) ensures d in DrivesOf(s + t) {
      var i :| 0 <= i < |t| && t[i].drive == d;
      assert (s + t)[|s| + i].drive == d;
    }
    forall d | d in DrivesOf(s) ensures d in DrivesOf(s + t) {
      var i :| 0 <= i < |s| && s[i].drive == d;
      assert (s + t)[i].drive == d;
    }
  }

  /** A deletion that reports success has removed the server, its own drives as far as they could be
      deleted, and nothing else, exactly when the server was not misread as gone. */
  lemma DeleteIff(a: Account, server: Id, running: bool, calls: DeleteCalls)
    requires Delete(a, server, running, calls).1
    ensures var out := Delete(a, server, running, calls).0;
            && (server !in out.servers <==> !(server in a.servers && calls.get.ReadGone?))
            && (server in out.servers ==> out == a)
            && (forall s :: s in a.servers && s != server ==> s in out.servers && out.servers[s] == a.servers[s])
            && (forall d :: d in a.drives ==>
                  (d !in out.drives <==> server in a.servers && server !in out.servers && d in DrivesOf(a.servers[server]) - calls.stuck))
  {
  }

  /** The exact condition for a deletion to report success; one that fails has touched nothing. */
  lemma DeleteSucceedsIff(a: Account, server: Id, running: bool, calls: DeleteCalls)
    ensures var (out, ok) := Delete(a, server, running, calls);
            && (ok <==> calls.get.ReadGone? || (calls.get.Truthful? && (server !in a.servers || ((running ==> calls.stop) && calls.delete))))
            && (!ok ==> out == a)
  {
  }

  lemma MinusOwn(all: map<Id, Drive>, rest: map<Id, Drive>, own: set<Id>, extra: set<Id>)
    requires all.Keys == rest.Keys + own && rest.Keys !! own && forall d :: d in rest ==> all[d] == rest[d]
    ensures all - (own + extra) == rest - extra
  {
  }

  lemma MinusNothing(drives: map<Id, Drive>, extra: set<Id>)
    ensures drives - extra == drives <==> drives.Keys !! extra
  {
    if drives.Keys !! extra {
      assert drives - extra == drives;
    } else {
      var d :| d in drives && d in extra;
      assert d !in drives - extra;
    }
  }

  /** The account after a creation, with the drives `more` provisioned and the slots `extra` attached
      to the new server since. */
  function Since(b: Account, server: Id, more: map<Id, Drive>, extra: seq<Slot>): Account
    requires server in b.servers
  {
    Account(b.drives + more, b.servers[server := b.servers[server] + extra])
  }

  /** `b` is `a` with one more server and its drives. */
  ghost predicate Adds(a: Account, b: Account, server: Id) {
    && server in b.servers && b.servers - {server} == a.servers
    && b.drives.Keys == a.drives.Keys + DrivesOf(b.servers[server]) && a.drives.Keys !! DrivesOf(b.servers[server])
    && forall d :: d in a.drives ==> b.drives[d] == a.drives[d]
  }

  lemma CreateAddsServer(a: Account, spec: ServerSpec, calls: CreateCalls)
    requires |calls.clones| == |spec.disks| && FreshClones(a, calls) && Create(a, spec, calls).1.Some?
    requires calls.server !in a.servers
    ensures Adds(a, Create(a, spec, calls).0, calls.server)
  {
    CreateAdds(a, spec, calls);
    assert a.servers[calls.server := Slots(spec, calls)] - {calls.server} == a.servers;
  }

  lemma DeleteUndoes(a: Account, b: Account, server: Id, more: map<Id, Drive>, extra: seq<Slot>, del: DeleteCalls)
    requires Adds(a, b, server) && more.Keys !! b.drives.Keys
    requires del.get.Truthful? && del.delete && del.stuck == {}
    ensures var (out, ok) := Delete(Since(b, server, more, extra), server, false, del);
            ok && out.servers == a.servers && out.drives == (a.drives + more) - DrivesOf(extra)
  {
    var own := b.servers[server];
    DrivesOfAppend(own, extra);
    MinusOwn(b.drives + more, a.drives + more, DrivesOf(own), DrivesOf(extra));
    assert b.servers[server := own + extra] - {server} == b.servers - {server};
  }

  /** Deletion undoes creation: whatever was provisioned and attached in between, the account comes
      back with what was provisioned and without exactly the drives attached; so everything else is
      as if the server had never been if and only if no other drive was attached. */
  lemma DeleteUndoesCreate(a: Account, spec: ServerSpec, calls: CreateCalls, more: map<Id, Drive>, extra: seq<Slot>, del: DeleteCalls)
    requires |calls.clones| == |spec.disks| && FreshClones(a, calls) && Create(a, spec, calls).1.Some?
    requires calls.server !in a.servers && more.Keys !! Create(a, spec, calls).0.drives.Keys
    requires del.get.Truthful? && del.delete && del.stuck == {}
    ensures calls.server in Create(a, spec, calls).0.servers
    ensures var (out, ok) := Delete(Since(Create(a, spec, calls).0, calls.server, more, extra), calls.server, false, del);
            && ok && out == Account((a.drives + more) - DrivesOf(extra), a.servers)
            && (out == Account(a.drives + more, a.servers) <==> (a.drives + more).Keys !! DrivesOf(extra))
  {
    CreateAddsServer(a, spec, calls);
    DeleteUndoes(a, Create(a, spec, calls).0, calls.server, more, extra, del);
    MinusNothing(a.drives + more, DrivesOf(extra));
  }

  // ----- The client as it runs -----

  class Client {
    var drives: map<Id, Drive>
    var servers: map<Id, seq<Slot>>

    ghost function State(): Account
      reads this
    {
      Account(drives, servers)
    }

    constructor (a: Account)
      ensures State() == a
    {
      drives, servers := a.drives, a.servers;
    }

    method CloneDrive(drive: Drive, clone: Clone) returns (uuid: Option<Id>)
      modifies this`drives
      ensures drives == if clone.NoDrive? then old(drives) else old(drives)[clone.uuid := drive]
      ensures uuid == if clone.Ready? then Some(clone.uuid) else None
    {
      if !clone.NoDrive? { drives := drives[clone.uuid := drive]; }
      uuid := if clone.Ready? then Some(clone.uuid) else None;
    }

    /** The deletion loops: failures are ignored. */
    method DeleteDrives(uuids: seq<Id>, stuck: set<Id>)
      modifies this`drives
      ensures drives == old(drives) - (Elements(uuids) - stuck)
    {
      for i := 0 to |uuids|
        invariant drives == old(drives) - (Elements(uuids[..i]) - stuck)
      {
        if uuids[i] !in stuck { drives := drives - {uuids[i]}; }
      }
      assert uuids[..|uuids|] == uuids;
    }

    /** The cloning loop; it stops at the first failure. */
    method CloneDrives(spec: ServerSpec, calls: CreateCalls) returns (clonedDrives: seq<Id>)
      requires |calls.clones| == |spec.disks|
      modifies this`drives
      ensures clonedDrives == UUIDs(calls, Successes(spec, calls, 0))
      ensures drives == Cloned(old(drives), spec, calls)
    {
      clonedDrives := [];
      for i := 0 to |spec.disks|
        invariant |clonedDrives| == i && forall j :: 0 <= j < i ==> calls.clones[j] == Ready(clonedDrives[j])
        invariant Successes(spec, calls, 0) == Successes(spec, calls, i)
        invariant drives == AddAll(old(drives), clonedDrives, Wanted(spec, i))
      {
        var uuid := CloneDrive(DriveFor(spec, i), calls.clones[i]);
        if uuid.None? {
          assert Successes(spec, calls, 0) == i && clonedDrives == UUIDs(calls, i);
          return;
        }
        AddAllSnoc(old(drives), clonedDrives, Wanted(spec, i), uuid.value, DriveFor(spec, i));
        assert Wanted(spec, i + 1) == Wanted(spec, i) + [DriveFor(spec, i)];
        clonedDrives := clonedDrives + [uuid.value];
      }
      assert clonedDrives == UUIDs(calls, |spec.disks|);
    }

    method CreateServer(spec: ServerSpec, calls: CreateCalls) returns (server: Option<Id>)
      requires |calls.clones| == |spec.disks|
      modifies this
      ensures (State(), server) == Create(old(State()), spec, calls)
    {
      var clonedDrives := CloneDrives(spec, calls);
      if |clonedDrives| < |spec.disks| || calls.server == "" {
        DeleteDrives(clonedDrives, calls.stuck);
        return None;
      }
      var slots := BuildSlots(spec, clonedDrives);
      assert slots == Slots(spec, calls);
      servers := servers[calls.server := slots];
      return Some(calls.server);
    }

    /** The loop that attaches the clones, in disk order. */
    method BuildSlots(spec: ServerSpec, clonedDrives: seq<Id>) returns (slots: seq<Slot>)
      requires |clonedDrives| == |spec.disks|
      ensures |slots| == |spec.disks| && forall i :: 0 <= i < |slots| ==> slots[i] == SlotFor(spec.disks[i], clonedDrives[i])
    {
      slots := [];
      for i := 0 to |spec.disks|
        invariant |slots| == i && forall j :: 0 <= j < i ==> slots[j] == SlotFor(spec.disks[j], clonedDrives[j])
      {
        slots := slots + [SlotFor(spec.disks[i], clonedDrives[i])];
      }
    }

    method DeleteServer(server: Id, running: bool, calls: DeleteCalls) returns (ok: bool)
      modifies this
      ensures (State(), ok) == Delete(old(State()), server, running, calls)
    {
      if calls.get.Unreadable? { return false; }
      if server !in servers || calls.get.ReadGone? { return true; }
      var slots := servers[server];
      var driveUUIDs: seq<Id> := [];
      for i := 0 to |slots|
        invariant State() == old(State())
        invariant Elements(driveUUIDs) == DrivesOf(slots[..i])
      {
        assert DrivesOf(slots[..i + 1]) == DrivesOf(slots[..i]) + {slots[i].drive} by {
          assert forall j :: 0 <= j < i ==> slots[..i + 1][j] == slots[..i][j];
        }
        driveUUIDs := driveUUIDs + [slots[i].drive];
      }
      assert slots[..|slots|] == slots;
      if running && !calls.stop { return false; }
      if !calls.delete { return false; }
      servers := servers - {server};
      DeleteDrives(driveUUIDs, calls.stuck);
      return true;
    }
  }
}

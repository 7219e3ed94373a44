/** The CSI driver as it runs: list-rebuilding loops around whole-list server updates. */
module Driver {
  import opened Base
  import opened Channels
  import opened Attach

  /** The cloud API. Each method is one request. */
  class CloudApi {
    var servers: map<Id, seq<Entry>>
    var volumes: map<Id, string>

    ghost function State(): Fleet
      reads this
    {
      Fleet(servers, volumes)
    }

    constructor (fleet: Fleet)
      ensures State() == fleet
    {
      servers, volumes := fleet.servers, fleet.volumes;
    }

    method GetServer(node: Id, answer: Answer) returns (got: Answer, drives: seq<Entry>)
      ensures got == Get(node in servers, answer)
      ensures got.Found? ==> drives == servers[node]
    {
      got, drives := Get(node in servers, answer), [];
      if got.Found? { drives := servers[node]; }
    }

    method UpdateServer(node: Id, drives: seq<Entry>, write: Write) returns (ok: bool)
      modifies this`servers
      ensures State() == Update(old(State()), node, drives, write)
      ensures ok <==> write.Done?
    {
      if !write.Rejected? && node in servers { servers := servers[node := drives]; }
      ok := write.Done?;
    }
  }

  class Mutex {
    constructor () {}
  }

  /** One poll of the drive after a detach: how its GET ends and whether it shows the drive unmounted. */
  datatype Poll = Poll(get: Answer, unmounted: bool)

  class CsiDriver {
    const cloud: CloudApi
    var serverAttachLocks: map<Id, Mutex>

    constructor (cloud: CloudApi)
      ensures this.cloud == cloud && serverAttachLocks == map[]
    {
      this.cloud, serverAttachLocks := cloud, map[];
    }

    /** getServerLock: one lock per server, made on first use and never replaced. */
    method GetServerLock(server: Id) returns (lock: Mutex)
      modifies this`serverAttachLocks
      ensures server in serverAttachLocks && serverAttachLocks[server] == lock
      ensures serverAttachLocks == old(serverAttachLocks)[server := lock]
      ensures server in old(serverAttachLocks) ==> lock == old(serverAttachLocks)[server]
      ensures Injective(old(serverAttachLocks)) ==> Injective(serverAttachLocks)
    {
      if server in serverAttachLocks { return serverAttachLocks[server]; }
      lock := new Mutex();
      serverAttachLocks := serverAttachLocks[server := lock];
    }

    /** CreateVolume, once its arguments are checked: an existing drive of that name is the volume. */
    method CreateVolume(name: string, list: Option<seq<Id>>, uuid: Id, write: Write) returns (vol: Option<Id>)
      modifies cloud`volumes
      ensures (cloud.State(), vol) == Create(old(cloud.State()), name, list, uuid, write)
    {
      if list.None? { return None; }
      var listing := list.value;
      for i := 0 to |listing|
        invariant cloud.State() == old(cloud.State())
        invariant FindDrive(cloud.State(), listing, name) == FindDrive(cloud.State(), listing[i..], name)
      {
        if listing[i] in cloud.volumes && cloud.volumes[listing[i]] == name { return Some(listing[i]); }
      }
      if !write.Rejected? { cloud.volumes := cloud.volumes[uuid := name]; }
      return if write.Done? then Some(uuid) else None;
    }

    /** DeleteVolume, untagging aside. */
    method DeleteVolume(vol: Id, get: Answer, mounted: bool, write: Write) returns (ok: bool)
      modifies cloud`volumes
      ensures (cloud.State(), ok) == Delete(old(cloud.State()), vol, get, mounted, write)
    {
      match Get(vol in cloud.volumes, get) {
        case NotFound => return true;
        case Error => return false;
        case Found =>
          if mounted { return false; }
          if !write.Rejected? { cloud.volumes := cloud.volumes - {vol}; }
          return write.Done?;
      }
    }

    /** ControllerPublishVolume, from the first GET on. */
    method ControllerPublishVolume(vol: Id, node: Id, calls: PublishCalls) returns (result: Result)
      modifies cloud`servers
      ensures (cloud.State(), result) == Publish(old(cloud.State()), vol, node, calls)
    {
      ghost var f := cloud.State();
      var got, drives := cloud.GetServer(node, calls.server);
      if !got.Found? { return Failure; }
      for i := 0 to |drives|
        invariant cloud.State() == f
        invariant !Holds(drives[..i], vol)
        invariant Holds(drives, vol) ==> Holds(drives[i..], vol) && ChannelOf(drives, vol) == ChannelOf(drives[i..], vol)
      {
        if drives[i].volume == Some(vol) {
          assert drives[i..][0] == drives[i];
          assert Holds(drives, vol) && Holds(drives[i..], vol);
          assert ChannelOf(drives[i..], vol) == drives[i].channel;
          return Attached(drives[i].channel);
        }
        HoldsFrom(drives, i, vol);
      }
      assert !Holds(drives, vol);
      if !Get(vol in cloud.volumes, calls.drive).Found? { return Failure; }
      var ok := DetachElsewhere(vol, node, calls);
      if !ok { return Failure; }
      var channel := FindNextDeviceChannel(drives);
      var updated := cloud.UpdateServer(node, drives + [Entry(0, channel, "virtio", Some(vol))], calls.attach);
      if !updated { return Failure; }
      return Attached(channel);
    }

    /** The migration part of a publish; `ok` is false when it ends the publish with an error. */
    method DetachElsewhere(vol: Id, node: Id, calls: PublishCalls) returns (ok: bool)
      modifies cloud`servers
      ensures Migrate(old(cloud.State()), vol, node, calls) == if ok then Some(cloud.State()) else None
      ensures !ok ==> cloud.State() == old(cloud.State())
    {
      for i := 0 to |calls.mounts|
        invariant cloud.State() == old(cloud.State())
        invariant FirstOther(calls.mounts, node) == FirstOther(calls.mounts[i..], node)
      {
        var source := calls.mounts[i];
        if source != node {
          var got, drives := cloud.GetServer(source, calls.source);
          match got {
            case Error => return false;
            case NotFound => return true;
            case Found =>
              var found, newDrives := RemoveDrive(drives, vol);
              var detached := cloud.UpdateServer(source, newDrives, calls.detach);
              return true;
          }
        }
      }
      return true;
    }

    /** ControllerUnpublishVolume. Whatever the polls show, a detach that was accepted succeeds. */
    method ControllerUnpublishVolume(vol: Id, node: Id, calls: UnpublishCalls, polls: seq<Poll>) returns (result: Result)
      modifies cloud`servers
      ensures (cloud.State(), result) == Unpublish(old(cloud.State()), vol, node, calls)
    {
      var got, drives := cloud.GetServer(node, calls.server);
      match got {
        case NotFound => return Detached;
        case Error => return Failure;
        case Found =>
          var found, newDrives := RemoveDrive(drives, vol);
          if !found { return Detached; }
          var updated := cloud.UpdateServer(node, newDrives, calls.detach);
          if !updated {
            var again, current := cloud.GetServer(node, calls.verify);
            match again {
              case NotFound => return Detached;
              case Error => return Failure;
              case Found =>
                var still, _ := RemoveDrive(current, vol);
                return if still then Failure else Detached;
            }
          }
          for i := 0 to 30 {
            var poll := if i < |polls| then polls[i] else Poll(Error, false);
            if poll.get.NotFound? || (poll.get.Found? && poll.unmounted) { return Detached; }
          }
          return Detached;
      }
    }
  }

  lemma HoldsFrom(drives: seq<Entry>, i: nat, vol: Id)
    requires i < |drives| && drives[i].volume != Some(vol)
    requires !Holds(drives[..i], vol)
    requires Holds(drives, vol) ==> Holds(drives[i..], vol) && ChannelOf(drives, vol) == ChannelOf(drives[i..], vol)
    ensures !Holds(drives[..i + 1], vol)
    ensures Holds(drives, vol) ==> Holds(drives[i + 1..], vol) && ChannelOf(drives, vol) == ChannelOf(drives[i + 1..], vol)
  {
    var seen := drives[..i + 1];
    forall j | 0 <= j < |seen| ensures seen[j].volume != Some(vol) {
      if j < i { assert drives[..i][j] == drives[j]; }
    }
    if Holds(drives, vol) {
      var k :| 0 <= k < |drives[i..]| && drives[i..][k].volume == Some(vol);
      assert drives[i + 1..][k - 1] == drives[i..][k];
      assert drives[i..][1..] == drives[i + 1..];
    }
  }

  lemma RemovedSnoc(drives: seq<Entry>, i: nat, vol: Id)
    requires i < |drives|
    ensures Holds(drives[..i + 1], vol) <==> Holds(drives[..i], vol) || drives[i].volume == Some(vol)
    ensures Removed(drives[..i + 1], vol) == Removed(drives[..i], vol) + if drives[i].volume != Some(vol) then [drives[i]] else []
  {
    RemovedAppend(drives[..i], drives[i], vol);
    assert drives[..i] + [drives[i]] == drives[..i + 1];
    assert drives[..i + 1][i] == drives[i];
    forall j | 0 <= j < i ensures drives[..i + 1][j] == drives[..i][j] { }
  }

  /** The drive list rebuilt without the volume, and whether it was there. */
  method RemoveDrive(drives: seq<Entry>, vol: Id) returns (found: bool, newDrives: seq<Entry>)
    ensures found <==> Holds(drives, vol)
    ensures newDrives == Removed(drives, vol)
  {
    found, newDrives := false, [];
    for i := 0 to |drives|
      invariant newDrives == Removed(drives[..i], vol)
      invariant found <==> Holds(drives[..i], vol)
    {
      RemovedSnoc(drives, i, vol);
      if drives[i].volume == Some(vol) {
        found := true;
      } else {
        newDrives := newDrives + [drives[i]];
      }
    }
    assert drives[..|drives|] == drives;
  }
}

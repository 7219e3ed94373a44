/** The CSI controller operations, one at a time, over the fleet of servers and volumes.

    Remote answers are parameters. A server update replaces the server's whole drive list. */
module Attach {
  import opened Base
  import opened Channels

  /** Drive lists by server and names by volume (drive UUID). */
  datatype Fleet = Fleet(servers: map<Id, seq<Entry>>, volumes: map<Id, string>)

  /** How the driver reads the end of a GET: any error text with "404" in it is `NotFound`, whatever
      the error was. */
  datatype Answer = Found | NotFound | Error

  function Read(error: Option<string>): Answer {
    match error
    case None => Found
    case Some(text) => if Contains(text, "404") then NotFound else Error
  }

  /** How an update ends; `Lost` was applied but answered with an error. */
  datatype Write = Done | Rejected | Lost

  /** `mounts` is the drive's mounted_on list as the API answers it. */
  datatype PublishCalls = PublishCalls(server: Answer, drive: Answer, mounts: seq<Id>, source: Answer,
                                       detach: Write, attach: Write)
  datatype UnpublishCalls = UnpublishCalls(server: Answer, detach: Write, verify: Answer)

  datatype Result = Attached(channel: string) | Detached | Failure

  predicate Holds(drives: seq<Entry>, vol: Id) {
    exists i :: 0 <= i < |drives| && drives[i].volume == Some(vol)
  }

  /** The drive list without the volume. */
  function Removed(drives: seq<Entry>, vol: Id): (out: seq<Entry>)
    ensures !Holds(out, vol)
  {
    var out := Filter(drives, (e: Entry) => e.volume != Some(vol));
    assert forall i :: 0 <= i < |out| ==> out[i] in out;
    out
  }

  function Attachment(drives: seq<Entry>, vol: Id): Entry {
    Entry(0, NextChannel(drives), "virtio", Some(vol))
  }

  /** The channel of the first entry that holds the volume. */
  function ChannelOf(drives: seq<Entry>, vol: Id): string
    requires Holds(drives, vol)
  {
    if drives[0].volume == Some(vol) then drives[0].channel else ChannelOf(drives[1..], vol)
  }

  function MountedOn(f: Fleet, vol: Id): set<Id> {
    set n | n in f.servers && Holds(f.servers[n], vol)
  }

  /** The mount that a publish migrates away from: the first one that is not the target. */
  function FirstOther(mounts: seq<Id>, node: Id): (r: Option<Id>)
    ensures r.Some? ==> exists i :: 0 <= i < |mounts| && FirstAt(mounts, node, i) && r.value == mounts[i]
    ensures r.None? ==> forall n :: n in mounts ==> n == node
  {
    if mounts == [] then None
    else if mounts[0] != node then
      assert FirstAt(mounts, node, 0);
      Some(mounts[0])
    else
      assert forall n :: n in mounts ==> n == mounts[0] || n in mounts[1..];
      assert forall i :: 0 <= i < |mounts| - 1 && FirstAt(mounts[1..], node, i) ==> FirstAt(mounts, node, i + 1);
      FirstOther(mounts[1..], node)
  }

  predicate FirstAt(mounts: seq<Id>, node: Id, i: nat) {
    i < |mounts| && mounts[i] != node && forall j :: 0 <= j < i ==> mounts[j] == node
  }

  function Update(f: Fleet, node: Id, drives: seq<Entry>, write: Write): Fleet {
    if write.Rejected? || node !in f.servers then f else f.(servers := f.servers[node := drives])
  }

  /** The answer to a GET, given that an absent object cannot be found. */
  function Get(present: bool, answer: Answer): Answer {
    if answer.Found? && !present then NotFound else answer
  }

  /** Detach the volume from the server it is still mounted on, if there is one. */
  function Migrate(f: Fleet, vol: Id, node: Id, calls: PublishCalls): Option<Fleet> {
    match FirstOther(calls.mounts, node)
    case None => Some(f)
    case Some(source) =>
      match Get(source in f.servers, calls.source)
      case Error => None
      case NotFound => Some(f)
      case Found => Some(Update(f, source, Removed(f.servers[source], vol), calls.detach))
  }

  function Publish(f: Fleet, vol: Id, node: Id, calls: PublishCalls): (Fleet, Result) {
    if !Get(node in f.servers, calls.server).Found? then (f, Failure) else
    var drives := f.servers[node];
    if Holds(drives, vol) then (f, Attached(ChannelOf(drives, vol)))
    else if !Get(vol in f.volumes, calls.drive).Found? then (f, Failure)
    else match Migrate(f, vol, node, calls)
         case None => (f, Failure)
         case Some(g) => (Update(g, node, drives + [Attachment(drives, vol)], calls.attach),
                          if calls.attach.Done? then Attached(NextChannel(drives)) else Failure)
  }

  function Unpublish(f: Fleet, vol: Id, node: Id, calls: UnpublishCalls): (Fleet, Result) {
    match Get(node in f.servers, calls.server)
    case NotFound => (f, Detached)
    case Error => (f, Failure)
    case Found =>
      if !Holds(f.servers[node], vol) then (f, Detached) else
      var g := Update(f, node, Removed(f.servers[node], vol), calls.detach);
      if calls.detach.Done? then (g, Detached) else
      match calls.verify
      case NotFound => (g, Detached)
      case Error => (g, Failure)
      case Found => (g, if Holds(g.servers[node], vol) then Failure else Detached)
  }

  /** An error about a server that holds the volume is read as "the server is gone", at the first GET
      or when re-checking after a rejected update. */
  predicate MisreadGone(f: Fleet, vol: Id, node: Id, calls: UnpublishCalls) {
    && node in f.servers && Holds(f.servers[node], vol)
    && (calls.server.NotFound? || (calls.detach.Rejected? && calls.verify.NotFound?))
  }

  // ----- What one call does -----

  lemma {:induction false} ChannelOfHolds(drives: seq<Entry>, vol: Id)
    requires Holds(drives, vol)
    ensures exists i :: 0 <= i < |drives| && drives[i].volume == Some(vol) && drives[i].channel == ChannelOf(drives, vol)
  {
    if drives[0].volume != Some(vol) {
      ChannelOfHolds(drives[1..], vol);
      var i :| 0 <= i < |drives[1..]| && drives[1..][i].volume == Some(vol) && drives[1..][i].channel == ChannelOf(drives[1..], vol);
      assert drives[i + 1] == drives[1..][i];
    }
  }

  /** A successful publish leaves the volume on the node at the channel it returns. */
  lemma PublishAttaches(f: Fleet, vol: Id, node: Id, calls: PublishCalls)
    requires Publish(f, vol, node, calls).1.Attached?
    ensures var (g, r) := Publish(f, vol, node, calls);
            node in g.servers && exists i :: 0 <= i < |g.servers[node]| && g.servers[node][i].volume == Some(vol)
                                             && g.servers[node][i].channel == r.channel
  {
    var drives := f.servers[node];
    if Holds(drives, vol) {
      ChannelOfHolds(drives, vol);
    } else {
      var g := Publish(f, vol, node, calls).0;
      assert g.servers[node][|drives|] == Attachment(drives, vol);
    }
  }

  /** The exact condition for a publish to report success. */
  lemma PublishSucceedsIff(f: Fleet, vol: Id, node: Id, calls: PublishCalls)
    ensures Publish(f, vol, node, calls).1 != Detached
    ensures Publish(f, vol, node, calls).1.Attached? <==>
              && node in f.servers && calls.server.Found?
              && (Holds(f.servers[node], vol)
                  || (vol in f.volumes && calls.drive.Found? && (FirstOther(calls.mounts, node).Some? ==> !calls.source.Error?)
                      && calls.attach.Done?))
  {
  }

  /** What a publish writes to its node: nothing if the volume is there or the update does not go
      through; otherwise one entry at the end of the list, a virtio device that is not booted from, at
      a channel that is unused if one is free. */
  lemma PublishAppends(f: Fleet, vol: Id, node: Id, calls: PublishCalls)
    requires node in f.servers
    ensures var (g, r), drives := Publish(f, vol, node, calls), f.servers[node];
            && node in g.servers
            && (Holds(drives, vol) ==> g == f)
            && (calls.attach.Rejected? ==> g.servers[node] == drives)
            && (r.Attached? && !Holds(drives, vol) ==>
                  g.servers[node] == drives + [Entry(0, r.channel, "virtio", Some(vol))] && (HasRoom(drives) ==> r.channel !in Used(drives)))
  {
    MigrateOnlyMoves(f, vol, node, calls);
    NextChannelComplete(f.servers[node]);
  }

  /** The exact condition for an unpublish to report success: the node is gone, or reads so; or it is
      found, and the volume is not there, or the update is accepted, or the re-check reads the node as
      gone or sees that the update took effect. */
  lemma UnpublishSucceedsIff(f: Fleet, vol: Id, node: Id, calls: UnpublishCalls)
    ensures Unpublish(f, vol, node, calls).1 in {Detached, Failure}
    ensures Unpublish(f, vol, node, calls).1.Detached? <==>
              || calls.server.NotFound?
              || (node !in f.servers && calls.server.Found?)
              || (node in f.servers && calls.server.Found? &&
                    (!Holds(f.servers[node], vol) || calls.detach.Done? || calls.verify.NotFound?
                     || (calls.verify.Found? && calls.detach.Lost?)))
  {
  }

  /** Unpublish reports success while the volume is still on the node exactly when an error was
      misread; so the path that re-checks after a failed update is otherwise sound. */
  lemma UnpublishDetachesIff(f: Fleet, vol: Id, node: Id, calls: UnpublishCalls)
    requires Unpublish(f, vol, node, calls).1.Detached?
    ensures var g := Unpublish(f, vol, node, calls).0;
            (node !in g.servers || !Holds(g.servers[node], vol)) <==> !MisreadGone(f, vol, node, calls)
  {
  }

  /** Seen without volume `vol`, nothing has moved: same servers, same entries, same order, same channels. */
  ghost predicate OnlyMoves(f: Fleet, g: Fleet, vol: Id) {
    && g.volumes == f.volumes && g.servers.Keys == f.servers.Keys
    && forall n :: n in f.servers ==> Removed(g.servers[n], vol) == Removed(f.servers[n], vol)
  }

  lemma RemovedTwice(drives: seq<Entry>, vol: Id)
    ensures Removed(Removed(drives, vol), vol) == Removed(drives, vol)
  {
    FilterTwice(drives, (e: Entry) => e.volume != Some(vol), (e: Entry) => e.volume != Some(vol), (e: Entry) => e.volume != Some(vol));
  }

  lemma RemovedAppend(drives: seq<Entry>, e: Entry, vol: Id)
    ensures Removed(drives + [e], vol) == Removed(drives, vol) + if e.volume != Some(vol) then [e] else []
  {
    FilterSnoc(drives, e, (x: Entry) => x.volume != Some(vol));
  }

  lemma RemovedAbsent(drives: seq<Entry>, vol: Id)
    requires !Holds(drives, vol)
    ensures Removed(drives, vol) == drives
  {
    FilterKeepsAll(drives, (e: Entry) => e.volume != Some(vol));
  }

  lemma OnlyMovesTrans(f: Fleet, g: Fleet, h: Fleet, vol: Id)
    requires OnlyMoves(f, g, vol) && OnlyMoves(g, h, vol)
    ensures OnlyMoves(f, h, vol)
  {
  }

  /** An update moves nothing but the volume if the lists agree without it. */
  lemma UpdateOnlyMoves(f: Fleet, node: Id, vol: Id, drives: seq<Entry>, write: Write)
    requires node in f.servers && Removed(drives, vol) == Removed(f.servers[node], vol)
    ensures OnlyMoves(f, Update(f, node, drives, write), vol)
  {
  }

  lemma MigrateOnlyMoves(f: Fleet, vol: Id, node: Id, calls: PublishCalls)
    ensures var g := Migrate(f, vol, node, calls);
            g.Some? ==> OnlyMoves(f, g.value, vol) && (node in f.servers ==> g.value.servers[node] == f.servers[node])
  {
    var other := FirstOther(calls.mounts, node);
    if other.Some? && Get(other.value in f.servers, calls.source).Found? {
      DetachOnlyMoves(f, other.value, vol, calls.detach);
      assert Migrate(f, vol, node, calls) == Some(Update(f, other.value, Removed(f.servers[other.value], vol), calls.detach));
    } else {
      assert Migrate(f, vol, node, calls) in {None, Some(f)};
    }
  }

  lemma DetachOnlyMoves(f: Fleet, node: Id, vol: Id, write: Write)
    requires node in f.servers
    ensures OnlyMoves(f, Update(f, node, Removed(f.servers[node], vol), write), vol)
  {
    RemovedTwice(f.servers[node], vol);
    UpdateOnlyMoves(f, node, vol, Removed(f.servers[node], vol), write);
  }

  lemma AttachOnlyMoves(f: Fleet, node: Id, vol: Id, write: Write)
    requires node in f.servers
    ensures OnlyMoves(f, Update(f, node, f.servers[node] + [Attachment(f.servers[node], vol)], write), vol)
  {
    var drives := f.servers[node];
    RemovedAppend(drives, Attachment(drives, vol), vol);
    assert Removed(drives, vol) + [] == Removed(drives, vol);
    UpdateOnlyMoves(f, node, vol, drives + [Attachment(drives, vol)], write);
  }

  /** No publish touches any other volume's entry, whatever fails. */
  lemma PublishOnlyMoves(f: Fleet, vol: Id, node: Id, calls: PublishCalls)
    ensures OnlyMoves(f, Publish(f, vol, node, calls).0, vol)
  {
    var g := Migrate(f, vol, node, calls);
    MigrateOnlyMoves(f, vol, node, calls);
    var out := Publish(f, vol, node, calls).0;
    if node in f.servers && g.Some? && out != f {
      var now := f.servers[node] + [Attachment(f.servers[node], vol)];
      assert out == Update(g.value, node, now, calls.attach);
      AttachOnlyMoves(g.value, node, vol, calls.attach);
      OnlyMovesTrans(f, g.value, out, vol);
    } else {
      assert out == f;
    }
  }

  lemma UnpublishOnlyMoves(f: Fleet, vol: Id, node: Id, calls: UnpublishCalls)
    ensures OnlyMoves(f, Unpublish(f, vol, node, calls).0, vol)
  {
    if node in f.servers {
      RemovedTwice(f.servers[node], vol);
      var out := Unpublish(f, vol, node, calls).0;
      assert out == f || out == f.(servers := f.servers[node := Removed(f.servers[node], vol)]);
    }
  }

  lemma MigrateNothing(f: Fleet, vol: Id, node: Id, calls: PublishCalls)
    requires MountedOn(f, vol) == {}
    ensures Migrate(f, vol, node, calls) in {None, Some(f)}
  {
    var other := FirstOther(calls.mounts, node);
    if other.Some? && other.value in f.servers {
      assert other.value !in MountedOn(f, vol);
      RemovedAbsent(f.servers[other.value], vol);
      assert f.servers[other.value := f.servers[other.value]] == f.servers;
    }
  }

  /** Attaching an unattached volume and detaching it again restores the whole fleet, whatever its
      mounted_on says. */
  lemma RoundTrip(f: Fleet, vol: Id, node: Id, p: PublishCalls, u: UnpublishCalls)
    requires MountedOn(f, vol) == {} && Publish(f, vol, node, p).1.Attached?
    requires u.server.Found? && !u.detach.Rejected?
    ensures Unpublish(Publish(f, vol, node, p).0, vol, node, u).0 == f
  {
    var drives := f.servers[node];
    assert node !in MountedOn(f, vol);
    MigrateNothing(f, vol, node, p);
    var now := drives + [Attachment(drives, vol)];
    assert Publish(f, vol, node, p).0 == f.(servers := f.servers[node := now]);
    assert now[|drives|].volume == Some(vol);
    RemovedAppend(drives, Attachment(drives, vol), vol);
    RemovedAbsent(drives, vol);
    assert Removed(now, vol) == drives;
    assert f.servers[node := drives] == f.servers;
  }

  // ----- Sequential runs -----

  ghost predicate OnceEach(drives: seq<Entry>) {
    forall i, j :: 0 <= i < j < |drives| && drives[i].volume.Some? ==> drives[i].volume != drives[j].volume
  }

  /** Each volume is in at most one server's list, at most once, and every listed drive exists. */
  ghost predicate Single(f: Fleet) {
    && (forall n :: n in f.servers ==> OnceEach(f.servers[n]))
    && (forall m, n, v :: m in f.servers && n in f.servers && m != n && Holds(f.servers[m], v) ==> !Holds(f.servers[n], v))
    && (forall n, v :: n in f.servers && Holds(f.servers[n], v) ==> v in f.volumes)
  }

  lemma {:induction false} RemovedFacts(drives: seq<Entry>, vol: Id)
    ensures OnceEach(drives) ==> OnceEach(Removed(drives, vol))
    ensures forall v :: Holds(Removed(drives, vol), v) <==> v != vol && Holds(drives, v)
  {
    var out := Removed(drives, vol);
    forall v | v != vol && Holds(drives, v) ensures Holds(out, v) {
      var i :| 0 <= i < |drives| && drives[i].volume == Some(v);
      assert drives[i] in out;
    }
    forall v | Holds(out, v) ensures Holds(drives, v) {
      var i :| 0 <= i < |out| && out[i].volume == Some(v);
      assert out[i] in drives;
    }
    if drives != [] {
      var front := drives[..|drives| - 1];
      RemovedFacts(front, vol);
      if OnceEach(drives) {
        assert OnceEach(front);
        var last := drives[|drives| - 1];
        forall i | 0 <= i < |Removed(front, vol)| && last.volume.Some? ensures Removed(front, vol)[i].volume != last.volume {
          assert Removed(front, vol)[i] in front;
        }
      }
    }
  }

  lemma AppendFacts(drives: seq<Entry>, vol: Id)
    requires OnceEach(drives) && !Holds(drives, vol)
    ensures OnceEach(drives + [Attachment(drives, vol)])
    ensures forall v :: Holds(drives + [Attachment(drives, vol)], v) <==> v == vol || Holds(drives, v)
  {
    var out := drives + [Attachment(drives, vol)];
    assert out[|drives|].volume == Some(vol);
    forall v | Holds(drives, v) ensures Holds(out, v) {
      var i :| 0 <= i < |drives| && drives[i].volume == Some(v);
      assert out[i].volume == Some(v);
    }
  }

  /** The migration takes the volume off server `m`: `m` is the first other server that mounted_on names,
      it is found, and its update is not rejected. */
  predicate Leaves(m: Id, node: Id, calls: PublishCalls) {
    FirstOther(calls.mounts, node) == Some(m) && calls.source.Found? && !calls.detach.Rejected?
  }

  /** The publish attaches the volume although some server keeps it. The source goes ahead when
      mounted_on does not name that server first, when an error about it reads as "gone", and when
      the detach fails. */
  predicate AttachesTwice(f: Fleet, vol: Id, node: Id, calls: PublishCalls) {
    && Get(node in f.servers, calls.server).Found? && !Holds(f.servers[node], vol)
    && Get(vol in f.volumes, calls.drive).Found?
    && (FirstOther(calls.mounts, node).Some? ==> !calls.source.Error?)
    && !calls.attach.Rejected?
    && exists m :: m in MountedOn(f, vol) && !Leaves(m, node, calls)
  }

  /** What a migration leaves of a volume's mounts, whatever mounted_on says. */
  lemma MigrateSingle(f: Fleet, vol: Id, node: Id, calls: PublishCalls)
    requires Single(f) && (node in f.servers ==> !Holds(f.servers[node], vol))
    ensures var g := Migrate(f, vol, node, calls);
            && (g.None? <==> FirstOther(calls.mounts, node).Some? && calls.source.Error?)
            && (g.Some? ==> && Single(g.value) && g.value.servers.Keys == f.servers.Keys && g.value.volumes == f.volumes
                            && (node in f.servers ==> g.value.servers[node] == f.servers[node])
                            && MountedOn(g.value, vol) == set m | m in MountedOn(f, vol) && !Leaves(m, node, calls))
  {
    var other := FirstOther(calls.mounts, node);
    if other.Some? && Get(other.value in f.servers, calls.source).Found? {
      UpdateSingle(f, other.value, vol, calls.detach);
    }
  }

  lemma UpdateSingle(f: Fleet, node: Id, vol: Id, write: Write)
    requires Single(f) && node in f.servers
    ensures var g := Update(f, node, Removed(f.servers[node], vol), write);
            Single(g) && MountedOn(g, vol) == if write.Rejected? then MountedOn(f, vol) else MountedOn(f, vol) - {node}
  {
    RemovedFacts(f.servers[node], vol);
  }

  /** Adding a volume to a list keeps single attachment exactly when no other list has it. */
  lemma AttachSingleIff(f: Fleet, node: Id, vol: Id, write: Write)
    requires Single(f) && node in f.servers && !Holds(f.servers[node], vol) && vol in f.volumes && !write.Rejected?
    ensures Single(Update(f, node, f.servers[node] + [Attachment(f.servers[node], vol)], write)) <==> MountedOn(f, vol) == {}
  {
    AppendFacts(f.servers[node], vol);
    var out := Update(f, node, f.servers[node] + [Attachment(f.servers[node], vol)], write);
    if other :| other in MountedOn(f, vol) {
      assert Holds(out.servers[node], vol) && Holds(out.servers[other], vol);
    } else {
      assert forall n :: n in f.servers && Holds(f.servers[n], vol) ==> n in MountedOn(f, vol);
    }
  }

  /** The exact condition for single attachment, for any mounted_on and any answers. */
  lemma PublishSingleIff(f: Fleet, vol: Id, node: Id, calls: PublishCalls)
    requires Single(f)
    ensures Single(Publish(f, vol, node, calls).0) <==> !AttachesTwice(f, vol, node, calls)
  {
    if Get(node in f.servers, calls.server).Found? && !Holds(f.servers[node], vol) && Get(vol in f.volumes, calls.drive).Found? {
      MigrateSingle(f, vol, node, calls);
      var g := Migrate(f, vol, node, calls);
      if g.Some? && !calls.attach.Rejected? {
        AttachSingleIff(g.value, node, vol, calls.attach);
        if m :| m in MountedOn(f, vol) && !Leaves(m, node, calls) { assert m in MountedOn(g.value, vol); }
      }
    }
  }

  /** A volume is attached twice by any publish, all of whose calls succeed, for which mounted_on does
      not name its server first: it is empty, say, or still names one that the volume has left. */
  lemma StaleMountAttachesTwice(f: Fleet, vol: Id, prior: Id, node: Id, mounts: seq<Id>)
    requires Single(f) && prior in f.servers && node in f.servers && prior != node && Holds(f.servers[prior], vol)
    requires FirstOther(mounts, node) != Some(prior)
    ensures var calls := PublishCalls(Found, Found, mounts, Found, Done, Done);
            Publish(f, vol, node, calls).1.Attached? && !Single(Publish(f, vol, node, calls).0)
  {
    var calls := PublishCalls(Found, Found, mounts, Found, Done, Done);
    assert prior in MountedOn(f, vol) && !Leaves(prior, node, calls);
    PublishSingleIff(f, vol, node, calls);
  }

  /** And by any error about the old server whose text holds "404", such as a server error that quotes
      a UUID with these digits, however exact mounted_on is. */
  lemma MisreadAttachesTwice(f: Fleet, vol: Id, prior: Id, node: Id, before: string, after: string)
    requires Single(f) && prior in f.servers && node in f.servers && prior != node && Holds(f.servers[prior], vol)
    requires Contains(prior, "404")
    ensures var calls := PublishCalls(Found, Found, [prior], Read(Some(before + prior + after)), Done, Done);
            Publish(f, vol, node, calls).1.Attached? && !Single(Publish(f, vol, node, calls).0)
  {
    var calls := PublishCalls(Found, Found, [prior], Read(Some(before + prior + after)), Done, Done);
    ContainsInside(before, prior, after, "404");
    assert prior in MountedOn(f, vol) && !Leaves(prior, node, calls);
    PublishSingleIff(f, vol, node, calls);
  }

  lemma UnpublishSingle(f: Fleet, vol: Id, node: Id, calls: UnpublishCalls)
    requires Single(f)
    ensures Single(Unpublish(f, vol, node, calls).0)
  {
    if node in f.servers {
      RemovedFacts(f.servers[node], vol);
      var out := Unpublish(f, vol, node, calls).0;
      assert out == f || out == f.(servers := f.servers[node := Removed(f.servers[node], vol)]);
    }
  }

  /** findDriveByName over the drives in the order in which the API lists them. */
  function FindDrive(f: Fleet, listing: seq<Id>, name: string): (r: Option<Id>)
    ensures r.Some? ==> exists i :: 0 <= i < |listing| && FirstNamed(f, listing, name, i) && r.value == listing[i]
    ensures r.None? ==> forall v :: v in listing && v in f.volumes ==> f.volumes[v] != name
  {
    if listing == [] then None
    else if Named(f, listing[0], name) then
      assert FirstNamed(f, listing, name, 0);
      Some(listing[0])
    else
      assert forall i :: 1 <= i < |listing| ==> listing[i] == listing[1..][i - 1];
      assert forall i :: 0 <= i < |listing| - 1 && FirstNamed(f, listing[1..], name, i) ==> FirstNamed(f, listing, name, i + 1);
      FindDrive(f, listing[1..], name)
  }

  predicate Named(f: Fleet, vol: Id, name: string) {
    vol in f.volumes && f.volumes[vol] == name
  }

  predicate FirstNamed(f: Fleet, listing: seq<Id>, name: string, i: nat) {
    i < |listing| && Named(f, listing[i], name) && forall j :: 0 <= j < i ==> !Named(f, listing[j], name)
  }

  /** CreateVolume returns a drive of that name if the list (`None`: it failed) shows one, and otherwise
      makes one; `uuid` is the UUID the cloud then gives it. */
  function Create(f: Fleet, name: string, list: Option<seq<Id>>, uuid: Id, write: Write): (Fleet, Option<Id>) {
    if list.None? then (f, None) else
    var found := FindDrive(f, list.value, name);
    if found.Some? then (f, found)
    else (if write.Rejected? then f else f.(volumes := f.volumes[uuid := name]), if write.Done? then Some(uuid) else None)
  }

  /** The list, if there is one, shows exactly the drives of the account. */
  ghost predicate Complete(f: Fleet, list: Option<seq<Id>>) {
    list.Some? ==> forall v :: v in list.value <==> v in f.volumes
  }

  /** The exact condition for a creation to report success, and what it then returns: the first listed
      drive of that name, or else a new one of that name. */
  lemma CreateSucceedsIff(f: Fleet, name: string, list: Option<seq<Id>>, uuid: Id, write: Write)
    ensures var (g, v) := Create(f, name, list, uuid, write);
            && (v.Some? <==> list.Some? && (FindDrive(f, list.value, name).Some? || write.Done?))
            && (v.Some? ==> v.value in g.volumes && g.volumes[v.value] == name && (v.value in list.value || v.value == uuid))
            && (forall x :: x in f.volumes && x != uuid ==> x in g.volumes && g.volumes[x] == f.volumes[x])
            && (g != f ==> uuid in g.volumes && g.volumes[uuid] == name && !write.Rejected?) && g.servers == f.servers
  {
  }

  /** No two drives share a volume name. */
  ghost predicate OnePerName(f: Fleet) {
    forall v, w :: v in f.volumes && w in f.volumes && f.volumes[v] == f.volumes[w] != "" ==> v == w
  }

  /** A drive is made although the account has one of that name: the list did not show it. */
  predicate CreatesBlind(f: Fleet, name: string, list: Option<seq<Id>>, write: Write) {
    list.Some? && FindDrive(f, list.value, name).None? && !write.Rejected? && name in f.volumes.Values
  }

  /** Names stay unique exactly when no drive is made blindly, lost replies included. */
  lemma OnePerNameIff(f: Fleet, name: string, list: Option<seq<Id>>, uuid: Id, write: Write)
    requires OnePerName(f) && name != "" && uuid !in f.volumes
    ensures OnePerName(Create(f, name, list, uuid, write).0) <==> !CreatesBlind(f, name, list, write)
    ensures Complete(f, list) ==> !CreatesBlind(f, name, list, write)
  {
    var g := Create(f, name, list, uuid, write).0;
    if CreatesBlind(f, name, list, write) {
      var v :| v in f.volumes && f.volumes[v] == name;
      assert g.volumes[v] == g.volumes[uuid] == name && v != uuid;
    } else if g != f {
      assert forall v :: v in f.volumes ==> f.volumes[v] in f.volumes.Values;
    }
  }

  /** Retrying a creation that took effect, its reply lost or not, makes no second drive: it returns
      the one of that name, which is the one the first call returned if it returned one. */
  lemma CreateIdempotent(f: Fleet, name: string, list: Option<seq<Id>>, uuid: Id, write: Write,
                         later: seq<Id>, uuid2: Id, write2: Write)
    requires OnePerName(f) && name != "" && uuid !in f.volumes && Complete(f, list)
    requires var g := Create(f, name, list, uuid, write).0; name in g.volumes.Values && Complete(g, Some(later))
    ensures var (g, v) := Create(f, name, list, uuid, write);
            var (h, w) := Create(g, name, Some(later), uuid2, write2);
            h == g && w.Some? && w.value in g.volumes && g.volumes[w.value] == name && (v.Some? ==> w == v)
  {
    OnePerNameIff(f, name, list, uuid, write);
    var g := Create(f, name, list, uuid, write).0;
    var v :| v in g.volumes && g.volumes[v] == name;
    assert v in later;
  }

  /** DeleteVolume refuses a drive that the answer calls mounted and calls an absent one deleted. */
  function Delete(f: Fleet, vol: Id, get: Answer, mounted: bool, write: Write): (Fleet, bool) {
    match Get(vol in f.volumes, get)
    case NotFound => (f, true)
    case Error => (f, false)
    case Found =>
      if mounted then (f, false)
      else (if write.Rejected? then f else f.(volumes := f.volumes - {vol}), write.Done?)
  }

  /** The drive is deleted while some server lists it: the answer's status was out of date. */
  predicate DeletesMounted(f: Fleet, vol: Id, get: Answer, mounted: bool, write: Write) {
    vol in f.volumes && get.Found? && !mounted && !write.Rejected? && MountedOn(f, vol) != {}
  }

  /** A deletion touches no other volume and no list. One that reports success has removed the volume
      unless an error about it was misread, and leaves no server with a dangling entry for it unless
      the volume is deleted while mounted. */
  lemma DeleteIff(f: Fleet, vol: Id, get: Answer, mounted: bool, write: Write)
    requires forall n, v :: n in f.servers && Holds(f.servers[n], v) ==> v in f.volumes
    ensures var (g, ok) := Delete(f, vol, get, mounted, write);
            && g.servers == f.servers && g.volumes in {f.volumes, f.volumes - {vol}}
            && (ok ==> (vol !in g.volumes <==> !(vol in f.volumes && get.NotFound?)))
            && ((forall n, v :: n in g.servers && Holds(g.servers[n], v) ==> v in g.volumes) <==>
                !DeletesMounted(f, vol, get, mounted, write))
  {
    var g := Delete(f, vol, get, mounted, write).0;
    if DeletesMounted(f, vol, get, mounted, write) {
      var n :| n in MountedOn(f, vol);
      assert n in g.servers && Holds(g.servers[n], vol) && vol !in g.volumes;
    } else if g != f {
      forall n, v | n in g.servers && Holds(g.servers[n], v) ensures v in g.volumes {
        assert v == vol ==> n in MountedOn(f, vol);
      }
    }
  }

  /** The exact condition for a deletion to report success. */
  lemma DeleteSucceedsIff(f: Fleet, vol: Id, get: Answer, mounted: bool, write: Write)
    ensures Delete(f, vol, get, mounted, write).1 <==>
              || get.NotFound?
              || (vol !in f.volumes && get.Found?)
              || (vol in f.volumes && get.Found? && !mounted && write.Done?)
  {
  }

  datatype Op =
    | CreateVolume(name: string, list: Option<seq<Id>>, uuid: Id, create: Write)
    | DeleteVolume(vol: Id, get: Answer, mounted: bool, delete: Write)
    | PublishVolume(vol: Id, node: Id, publish: PublishCalls)
    | UnpublishVolume(vol: Id, node: Id, unpublish: UnpublishCalls)
    | ServerAppears(node: Id, boot: Id)
    | ServerVanishes(node: Id)

  function Apply(f: Fleet, op: Op): Fleet {
    match op
    case CreateVolume(name, list, uuid, write) => Create(f, name, list, uuid, write).0
    case DeleteVolume(vol, get, mounted, write) => Delete(f, vol, get, mounted, write).0
    case PublishVolume(vol, node, calls) => Publish(f, vol, node, calls).0
    case UnpublishVolume(vol, node, calls) => Unpublish(f, vol, node, calls).0
    case ServerAppears(node, boot) =>
      Fleet(f.servers[node := [Entry(0, "0:0", "virtio", Some(boot))]], f.volumes[boot := ""])
    case ServerVanishes(node) => f.(servers := f.servers - {node})
  }

  function ApplyAll(f: Fleet, ops: seq<Op>): Fleet {
    if ops == [] then f else Apply(ApplyAll(f, ops[..|ops| - 1]), ops[|ops| - 1])
  }

  /** The account's drive list is complete; new servers and volumes come with new UUIDs. */
  ghost predicate Regular(f: Fleet, op: Op) {
    match op
    case CreateVolume(name, list, uuid, _) => name != "" && uuid !in f.volumes && Complete(f, list)
    case ServerAppears(node, boot) => node !in f.servers && boot !in f.volumes
    case _ => true
  }

  /** The two ways to break single attachment. */
  predicate Breaks(f: Fleet, op: Op) {
    match op
    case PublishVolume(vol, node, calls) => AttachesTwice(f, vol, node, calls)
    case DeleteVolume(vol, get, mounted, write) => DeletesMounted(f, vol, get, mounted, write)
    case _ => false
  }

  lemma DeleteSingleIff(f: Fleet, vol: Id, get: Answer, mounted: bool, write: Write)
    requires Single(f)
    ensures Single(Delete(f, vol, get, mounted, write).0) <==> !DeletesMounted(f, vol, get, mounted, write)
  {
    DeleteIff(f, vol, get, mounted, write);
  }

  /** The exact condition for every operation. */
  lemma StepSingleIff(f: Fleet, op: Op)
    requires Single(f) && Regular(f, op)
    ensures Single(Apply(f, op)) <==> !Breaks(f, op)
  {
    match op {
      case PublishVolume(vol, node, calls) => PublishSingleIff(f, vol, node, calls);
      case UnpublishVolume(vol, node, calls) => UnpublishSingle(f, vol, node, calls);
      case DeleteVolume(vol, get, mounted, write) => DeleteSingleIff(f, vol, get, mounted, write);
      case _ =>
    }
  }

  lemma StepOnePerName(f: Fleet, op: Op)
    requires OnePerName(f) && Regular(f, op)
    ensures OnePerName(Apply(f, op))
  {
    match op {
      case CreateVolume(name, list, uuid, write) => OnePerNameIff(f, name, list, uuid, write);
      case PublishVolume(vol, node, calls) => PublishOnlyMoves(f, vol, node, calls);
      case UnpublishVolume(vol, node, calls) => UnpublishOnlyMoves(f, vol, node, calls);
      case _ =>
    }
  }

  /** Over every sequential run of create, publish with migration, unpublish and delete, whatever
      fails: there is one drive per volume name, and, if no operation is one of those that break it,
      each volume is in at most one list, once, and every listed drive exists. */
  lemma {:induction false} RunSingle(f: Fleet, ops: seq<Op>)
    requires Single(f) && OnePerName(f) && forall i :: 0 <= i < |ops| ==> Regular(ApplyAll(f, ops[..i]), ops[i])
    ensures OnePerName(ApplyAll(f, ops))
    ensures (forall i :: 0 <= i < |ops| ==> !Breaks(ApplyAll(f, ops[..i]), ops[i])) ==> Single(ApplyAll(f, ops))
  {
    if ops != [] {
      var n := |ops| - 1;
      assert forall i :: 0 <= i < n ==> ops[..n][..i] == ops[..i];
      RunSingle(f, ops[..n]);
      StepOnePerName(ApplyAll(f, ops[..n]), ops[n]);
      if forall i :: 0 <= i < |ops| ==> !Breaks(ApplyAll(f, ops[..i]), ops[i]) {
        StepSingleIff(ApplyAll(f, ops[..n]), ops[n]);
      }
    }
  }

  // ----- Volume size -----

  const GIB: int := 1024 * 1024 * 1024
  const MAX_SIZE := 10 * 1024 * GIB

  /** The size CreateVolume asks for, in bytes; 0 stands for an absent bound. */
  function VolumeSize(required: int, limit: int): Option<int> {
    var size := if required > 0 then required else 10 * GIB;
    if limit > 0 && size > limit then None
    else if size > MAX_SIZE then None
    else Some(if size < GIB then GIB else size)
  }

  /** A size is granted exactly when the requested one, or 10 GiB if none is, is within the limit and 10 TiB;
      and it is that size, raised to 1 GiB. */
  lemma VolumeSizeIff(required: int, limit: int)
    ensures var asked := if required > 0 then required else 10737418240;
            && (VolumeSize(required, limit).Some? <==> (limit > 0 ==> asked <= limit) && asked <= 10995116277760)
            && (VolumeSize(required, limit).Some? ==>
                  VolumeSize(required, limit).value in {asked, 1073741824} && VolumeSize(required, limit).value >= asked
                  && (asked >= 1073741824 ==> VolumeSize(required, limit).value == asked))
  {
  }

  /** A size that is granted is large enough, and respects the limit exactly when the limit is
      absent or at least the 1 GiB minimum. */
  lemma VolumeSizeBounds(required: int, limit: int)
    requires VolumeSize(required, limit).Some?
    ensures var size := VolumeSize(required, limit).value;
            && required <= size && GIB <= size <= MAX_SIZE
            && ((limit > 0 ==> size <= limit) <==> !(0 < limit < GIB))
  {
  }
}

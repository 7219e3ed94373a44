/** The converse directions: when concurrent requests can lose a reported publish, and when they can
    attach a volume to two servers. Each is shown by a run, built step by step. */
module AttachThreats {
  import opened Base
  import opened Channels
  import opened Attach
  import opened AttachRaces

  /** The mounted_on that a publish reads about its volume is exact. */
  ghost predicate Exact(reqs: seq<Request>, s: System, e: Event) {
    e.Turn? && e.t < |reqs| && reqs[e.t].PublishReq? && e.t < |s.pcs| && s.pcs[e.t].Critical? && s.pcs[e.t].phase.Fetched? ==>
      (set m | m in e.mounts) == MountedOn(Fleet(s.servers, map[]), reqs[e.t].vol)
  }

  /** What the events of a run must obey: `Stays(n)` is the premise about server `n`. */
  datatype Rule = Stays(n: Id) | ExactMounts

  ghost predicate Obeys(reqs: seq<Request>, s: System, e: Event, rule: Rule) {
    match rule
    case Stays(n) => e != Vanish(n) && Room(s, e)
    case ExactMounts => Exact(reqs, s, e)
  }

  ghost predicate FairRun(reqs: seq<Request>, s: System, es: seq<Event>, rule: Rule)
    decreases |es|
  {
    es != [] ==> Obeys(reqs, s, es[0], rule) && FairRun(reqs, Step(reqs, s, es[0]), es[1..], rule)
  }

  lemma {:induction false} FairIs(reqs: seq<Request>, s: System, es: seq<Event>, n: Id)
    ensures FairRun(reqs, s, es, Stays(n)) <==> Vanish(n) !in es && RoomyRun(reqs, s, es)
    decreases |es|
  {
    if es != [] {
      FairIs(reqs, Step(reqs, s, es[0]), es[1..], n);
      assert es == [es[0]] + es[1..];
    }
  }

  /** A fair run leads from `s` to `out`. */
  ghost predicate Path(reqs: seq<Request>, s: System, es: seq<Event>, rule: Rule, out: System) {
    Run(reqs, s, es) == out && FairRun(reqs, s, es, rule)
  }

  lemma {:induction false} PathAppend(reqs: seq<Request>, s: System, a: seq<Event>, mid: System, b: seq<Event>, rule: Rule, out: System)
    requires Path(reqs, s, a, rule, mid) && Path(reqs, mid, b, rule, out)
    ensures Path(reqs, s, a + b, rule, out)
    decreases |a|
  {
    if a == [] {
      assert a + b == b;
    } else {
      assert (a + b)[1..] == a[1..] + b;
      PathAppend(reqs, Step(reqs, s, a[0]), a[1..], mid, b, rule, out);
    }
  }

  /** One more step. */
  lemma Go(reqs: seq<Request>, s: System, before: seq<Event>, mid: System, e: Event, rule: Rule) returns (es: seq<Event>)
    requires Path(reqs, s, before, rule, mid) && Obeys(reqs, mid, e, rule)
    ensures Path(reqs, s, es, rule, Step(reqs, mid, e))
  {
    es := before + [e];
    assert [e][1..] == [];
    PathAppend(reqs, s, before, mid, [e], rule, Step(reqs, mid, e));
  }

  function Turned(t: nat): Event {
    Turn(t, Found, Done, [])
  }

  /** The server's lock is free, made or not. */
  predicate LockFree(s: System, node: Id) {
    (if node in s.locks then s.locks[node] else s.made) !in s.owner
  }

  /** Thread `t` has taken the lock of its server. */
  function Inside(s: System, t: nat, node: Id, phase: Phase): System
    requires t < |s.pcs|
  {
    var lock := if node in s.locks then s.locks[node] else s.made;
    System(s.servers, s.locks[node := lock], if node in s.locks then s.made else s.made + 1, s.owner[lock := t],
           s.pcs[t := Critical(lock, phase)])
  }

  /** It has ended, with these servers. */
  function Over(s: System, t: nat, node: Id, servers: map<Id, seq<Entry>>, result: Result): System
    requires t < |s.pcs|
  {
    var lock := if node in s.locks then s.locks[node] else s.made;
    System(servers, s.locks[node := lock], if node in s.locks then s.made else s.made + 1, s.owner, s.pcs[t := Ended(result)])
  }

  lemma Enter(reqs: seq<Request>, s: System, t: nat, rule: Rule) returns (es: seq<Event>)
    requires t < |reqs| == |s.pcs| && reqs[t].PublishReq? && s.pcs[t].Start? && LockFree(s, reqs[t].node)
    ensures Path(reqs, s, es, rule, Inside(s, t, reqs[t].node, Entered))
  {
    var s1 := Step(reqs, s, Turned(t));
    es := Go(reqs, s, [], s, Turned(t), rule);
    es := Go(reqs, s, es, s1, Turned(t), rule);
    assert Step(reqs, s1, Turned(t)) == Inside(s, t, reqs[t].node, Entered);
  }

  /** Up to the point where the mounted_on of the volume has been read. */
  lemma EnterAndRead(reqs: seq<Request>, s: System, t: nat, mounts: seq<Id>, rule: Rule) returns (es: seq<Event>)
    requires t < |reqs| == |s.pcs| && reqs[t].PublishReq? && s.pcs[t].Start? && LockFree(s, reqs[t].node)
    requires reqs[t].node in s.servers && !Holds(s.servers[reqs[t].node], reqs[t].vol)
    requires rule.ExactMounts? ==> (set m | m in mounts) == MountedOn(Fleet(s.servers, map[]), reqs[t].vol)
    ensures var node := reqs[t].node;
            Path(reqs, s, es, rule, Inside(s, t, node, match FirstOther(mounts, node)
                                                       case None => Attaching(s.servers[node])
                                                       case Some(source) => Migrating(s.servers[node], source)))
  {
    var node := reqs[t].node;
    var drives := s.servers[node];
    es := Enter(reqs, s, t, rule);
    es := Go(reqs, s, es, Inside(s, t, node, Entered), Turned(t), rule);
    var s2 := Inside(s, t, node, Fetched(drives));
    assert Step(reqs, Inside(s, t, node, Entered), Turned(t)) == s2;
    es := Go(reqs, s, es, s2, Turn(t, Found, Done, mounts), rule);
  }

  /** Then up to the point where the list of the old server has been read. */
  lemma EnterAndMove(reqs: seq<Request>, s: System, t: nat, mounts: seq<Id>, source: Id, rule: Rule) returns (es: seq<Event>)
    requires t < |reqs| == |s.pcs| && reqs[t].PublishReq? && s.pcs[t].Start? && LockFree(s, reqs[t].node)
    requires reqs[t].node in s.servers && !Holds(s.servers[reqs[t].node], reqs[t].vol)
    requires rule.ExactMounts? ==> (set m | m in mounts) == MountedOn(Fleet(s.servers, map[]), reqs[t].vol)
    requires FirstOther(mounts, reqs[t].node) == Some(source) && source in s.servers
    ensures Path(reqs, s, es, rule, Inside(s, t, reqs[t].node, Moving(s.servers[reqs[t].node], source, s.servers[source])))
  {
    var node := reqs[t].node;
    es := EnterAndRead(reqs, s, t, mounts, rule);
    es := Go(reqs, s, es, Inside(s, t, node, Migrating(s.servers[node], source)), Turned(t), rule);
  }

  /** The last request of a publish. */
  lemma Finish(reqs: seq<Request>, s: System, before: seq<Event>, mid: System, t: nat, servers: map<Id, seq<Entry>>, rule: Rule)
    returns (es: seq<Event>)
    requires t < |reqs| == |s.pcs| && reqs[t].PublishReq? && LockFree(s, reqs[t].node) && reqs[t].node in servers
    requires mid == Inside(s, t, reqs[t].node, Attaching(servers[reqs[t].node])).(servers := servers)
    requires Path(reqs, s, before, rule, mid) && (rule.Stays? ==> HasRoom(servers[reqs[t].node]))
    ensures var node, vol := reqs[t].node, reqs[t].vol;
            var drives := servers[node];
            Path(reqs, s, es, rule, Over(s, t, node, servers[node := drives + [Attachment(drives, vol)]], Attached(NextChannel(drives))))
  {
    es := Go(reqs, s, before, mid, Turned(t), rule);
    assert mid.owner - {mid.pcs[t].lock} == s.owner;
  }

  /** A publish runs to its end: `from` is the server it migrates away from, `detach` how that ends. */
  lemma Publishes(reqs: seq<Request>, s: System, t: nat, from: Option<Id>, detach: Write, mounts: seq<Id>, rule: Rule)
    returns (es: seq<Event>)
    requires t < |reqs| == |s.pcs| && reqs[t].PublishReq? && s.pcs[t].Start? && LockFree(s, reqs[t].node)
    requires reqs[t].node in s.servers && !Holds(s.servers[reqs[t].node], reqs[t].vol)
    requires rule.Stays? ==> HasRoom(s.servers[reqs[t].node])
    requires rule.ExactMounts? ==> (set m | m in mounts) == MountedOn(Fleet(s.servers, map[]), reqs[t].vol)
    requires FirstOther(mounts, reqs[t].node) == from && (from.Some? ==> from.value in s.servers) && detach in {Done, Rejected}
    ensures var node, vol, drives := reqs[t].node, reqs[t].vol, s.servers[reqs[t].node];
            var servers := if from.Some? && detach.Done? then s.servers[from.value := Removed(s.servers[from.value], vol)] else s.servers;
            Path(reqs, s, es, rule, Over(s, t, node, servers[node := drives + [Attachment(drives, vol)]], Attached(NextChannel(drives))))
  {
    var node := reqs[t].node;
    if from.None? {
      es := EnterAndRead(reqs, s, t, mounts, rule);
      es := Finish(reqs, s, es, Inside(s, t, node, Attaching(s.servers[node])), t, s.servers, rule);
    } else {
      es := EnterAndMove(reqs, s, t, mounts, from.value, rule);
      var s1 := Inside(s, t, node, Moving(s.servers[node], from.value, s.servers[from.value]));
      var move := Turn(t, Found, detach, []);
      var servers := PutDrives(s, from.value, Removed(s.servers[from.value], reqs[t].vol), detach).servers;
      assert Step(reqs, s1, move) == Inside(s, t, node, Attaching(servers[node])).(servers := servers);
      es := Go(reqs, s, es, s1, move, rule);
      es := Finish(reqs, s, es, Step(reqs, s1, move), t, servers, rule);
    }
  }

  /** A publish of a volume that is there already. */
  lemma PublishesAgain(reqs: seq<Request>, s: System, t: nat, rule: Rule) returns (es: seq<Event>)
    requires t < |reqs| == |s.pcs| && reqs[t].PublishReq? && s.pcs[t].Start? && LockFree(s, reqs[t].node)
    requires reqs[t].node in s.servers && Holds(s.servers[reqs[t].node], reqs[t].vol)
    ensures var node := reqs[t].node;
            Path(reqs, s, es, rule, Over(s, t, node, s.servers, Attached(ChannelOf(s.servers[node], reqs[t].vol))))
  {
    var node := reqs[t].node;
    es := Enter(reqs, s, t, rule);
    es := Go(reqs, s, es, Inside(s, t, node, Entered), Turned(t), rule);
    var lock := if node in s.locks then s.locks[node] else s.made;
    assert Inside(s, t, node, Entered).owner - {lock} == s.owner;
  }

  // ----- Locks along the way -----

  /** Locks are distinct objects, and only made ones are held. */
  ghost predicate LocksOk(s: System) {
    && Injective(s.locks) && (forall m :: m in s.locks ==> s.locks[m] < s.made) && forall l :: l in s.owner ==> l < s.made
  }

  /** Taking one server's lock leaves another's free. */
  lemma InsideLocks(s: System, t: nat, y: Id, phase: Phase, x: Id)
    requires LocksOk(s) && t < |s.pcs|
    ensures LocksOk(Inside(s, t, y, phase))
    ensures LockFree(s, x) && x != y ==> LockFree(Inside(s, t, y, phase), x)
  {
  }

  // ----- Losing a reported publish -----

  /** What request `req` makes of a list of `n` that it has read. */
  function WriteBack(req: Request, drives: seq<Entry>): seq<Entry> {
    if req.RewriteReq? then drives else Removed(drives, req.vol)
  }

  /** Thread `u` has read the list of `n` and is about to write it back. */
  predicate Poised(reqs: seq<Request>, s: System, u: nat, n: Id, drives: seq<Entry>)
    requires u < |reqs|
  {
    u < |s.pcs| &&
    match reqs[u]
    case UnpublishReq(vol, node) => node == n && s.pcs[u] == Detaching(Removed(drives, vol))
    case RewriteReq(node) => node == n && s.pcs[u] == Rewriting(drives)
    case PublishReq(_, _) =>
      s.pcs[u].Critical? && s.pcs[u].phase.Moving? && s.pcs[u].phase.source == n && s.pcs[u].phase.sourceDrives == drives
  }

  lemma Strike(reqs: seq<Request>, s: System, u: nat, n: Id, drives: seq<Entry>)
    requires u < |reqs| == |s.pcs| && Poised(reqs, s, u, n, drives) && n in s.servers
    ensures var out := Step(reqs, s, Turned(u));
            && out.servers == s.servers[n := WriteBack(reqs[u], drives)]
            && |out.pcs| == |s.pcs| && (forall t :: 0 <= t < |s.pcs| && t != u ==> out.pcs[t] == s.pcs[t])
            && out.locks == s.locks && out.made == s.made && out.owner == s.owner
    ensures Obeys(reqs, s, Turned(u), Stays(n))
  {
    match reqs[u] {
      case UnpublishReq(_, _) =>
      case RewriteReq(_) =>
      case PublishReq(vol, node) =>
        var pc := s.pcs[u];
        assert Step(reqs, s, Turned(u)) == StepCritical(s, u, vol, node, pc.lock, pc.phase, Turned(u));
    }
  }

  /** The requests that need no lock get there with one GET. */
  lemma PoiseFree(reqs: seq<Request>, s: System, u: nat, n: Id, rule: Rule) returns (es: seq<Event>, out: System)
    requires u < |reqs| == |s.pcs| && s.pcs[u].Start? && n in s.servers && !reqs[u].PublishReq? && reqs[u].node == n
    requires reqs[u].UnpublishReq? ==> Holds(s.servers[n], reqs[u].vol)
    ensures Path(reqs, s, es, rule, out) && Poised(reqs, out, u, n, s.servers[n])
    ensures out == s.(pcs := s.pcs[u := out.pcs[u]])
  {
    es := Go(reqs, s, [], s, Turned(u), rule);
    out := Step(reqs, s, Turned(u));
  }

  /** A publish to another server gets there if mounted_on names `n`, rightly or wrongly. */
  lemma PoiseMove(reqs: seq<Request>, s: System, u: nat, n: Id) returns (es: seq<Event>, out: System)
    requires u < |reqs| == |s.pcs| && s.pcs[u].Start? && n in s.servers && reqs[u].PublishReq? && reqs[u].node != n
    requires reqs[u].node in s.servers && !Holds(s.servers[reqs[u].node], reqs[u].vol)
    requires LocksOk(s) && LockFree(s, reqs[u].node)
    ensures Path(reqs, s, es, Stays(n), out) && Poised(reqs, out, u, n, s.servers[n])
    ensures out.servers == s.servers && |out.pcs| == |s.pcs| && forall t :: 0 <= t < |s.pcs| && t != u ==> out.pcs[t] == s.pcs[t]
    ensures LocksOk(out) && (LockFree(s, n) ==> LockFree(out, n))
  {
    var m := reqs[u].node;
    es := EnterAndMove(reqs, s, u, [n], n, Stays(n));
    out := Inside(s, u, m, Moving(s.servers[m], n, s.servers[n]));
    InsideLocks(s, u, m, Moving(s.servers[m], n, s.servers[n]), n);
  }

  lemma NotThere(drives: seq<Entry>, req: Request, vol: Id, channel: string)
    requires !Holds(drives, vol) || (!req.RewriteReq? && req.vol == vol)
    ensures !HasEntry(WriteBack(req, drives), vol, channel)
  {
    if !req.RewriteReq? { RemovedFacts(drives, req.vol); }
  }

  /** An unpublish runs to its end. */
  lemma Unpublishes(reqs: seq<Request>, s: System, u: nat, rule: Rule) returns (es: seq<Event>)
    requires u < |reqs| == |s.pcs| && s.pcs[u].Start? && reqs[u].UnpublishReq? && reqs[u].node in s.servers
    requires Holds(s.servers[reqs[u].node], reqs[u].vol)
    ensures var node := reqs[u].node;
            Path(reqs, s, es, rule, s.(servers := s.servers[node := Removed(s.servers[node], reqs[u].vol)], pcs := s.pcs[u := Ended(Detached)]))
  {
    var node := reqs[u].node;
    var s1;
    es, s1 := PoiseFree(reqs, s, u, node, rule);
    es := Go(reqs, s, es, s1, Turned(u), rule);
    assert Step(reqs, s1, Turned(u)) ==
           s.(servers := s.servers[node := Removed(s.servers[node], reqs[u].vol)], pcs := s.pcs[u := Ended(Detached)]);
  }

  // ----- Getting a volume off the target of a migration -----

  /** A state in which server `m` no longer lists `vol`, and `n` and the threads on it are as they were. */
  ghost predicate Freed(reqs: seq<Request>, start: map<Id, seq<Entry>>, out: System, m: Id, vol: Id, n: Id) {
    && |out.pcs| == |reqs| && out.servers.Keys == start.Keys && n in start && out.servers[n] == start[n]
    && m in out.servers && !Holds(out.servers[m], vol)
    && LocksOk(out) && LockFree(out, m) && LockFree(out, n)
    && forall t :: 0 <= t < |reqs| && reqs[t].PublishReq? && reqs[t].node in {m, n} ==> out.pcs[t].Start?
  }

  /** An unblocked publish elsewhere migrates the volume away from `m`. */
  lemma FreeByMove(reqs: seq<Request>, start: map<Id, seq<Entry>>, s: System, before: seq<Event>, q: nat, m: Id, n: Id)
    returns (es: seq<Event>, out: System)
    requires q < |reqs| == |s.pcs| && reqs[q].PublishReq? && reqs[q].node in start && reqs[q].node != m && reqs[q].node != n
    requires Path(reqs, Init(start, |reqs|), before, Stays(n), s) && s == Init(start, |reqs|).(servers := s.servers, pcs := s.pcs)
    requires s.servers.Keys == start.Keys && n in start && s.servers[n] == start[n] && m in start && m != n
    requires !Holds(s.servers[reqs[q].node], reqs[q].vol)
    requires forall t :: 0 <= t < |reqs| && reqs[t].PublishReq? ==> s.pcs[t].Start?
    ensures Path(reqs, Init(start, |reqs|), es, Stays(n), out) && Freed(reqs, start, out, m, reqs[q].vol, n)
  {
    var vol, node := reqs[q].vol, reqs[q].node;
    var more := EnterAndMove(reqs, s, q, [m], m, Stays(n));
    var mid := Inside(s, q, node, Moving(s.servers[node], m, s.servers[m]));
    PathAppend(reqs, Init(start, |reqs|), before, s, more, Stays(n), mid);
    es := Go(reqs, Init(start, |reqs|), before + more, mid, Turned(q), Stays(n));
    out := Step(reqs, mid, Turned(q));
    assert out == Inside(s, q, node, Attaching(s.servers[node])).(servers := s.servers[m := Removed(s.servers[m], vol)]);
    InsideLocks(s, q, node, Attaching(s.servers[node]), m);
    InsideLocks(s, q, node, Attaching(s.servers[node]), n);
  }

  lemma FreeByUnpublish(reqs: seq<Request>, start: map<Id, seq<Entry>>, x: nat, m: Id, vol: Id, n: Id)
    returns (es: seq<Event>, out: System)
    requires x < |reqs| && reqs[x] == UnpublishReq(vol, m) && m in start && n in start && m != n && Holds(start[m], vol)
    ensures Path(reqs, Init(start, |reqs|), es, Stays(n), out) && Freed(reqs, start, out, m, vol, n)
    ensures out == Init(start, |reqs|).(servers := out.servers, pcs := out.pcs)
    ensures forall t :: 0 <= t < |reqs| && reqs[t].PublishReq? ==> out.pcs[t].Start?
    ensures forall y :: y in start && y != m ==> out.servers[y] == start[y]
  {
    es := Unpublishes(reqs, Init(start, |reqs|), x, Stays(n));
    out := Run(reqs, Init(start, |reqs|), es);
  }

  /** A mobile volume can be got off any server other than `n`, unless it takes an unpublish from `n`
      or a publish to it. */
  lemma FreeTarget(reqs: seq<Request>, start: map<Id, seq<Entry>>, m: Id, vol: Id, n: Id) returns (es: seq<Event>, out: System)
    requires m in start && n in start && m != n && Mobile(reqs, start, vol)
    requires PublishReq(vol, n) in reqs ==> Holds(start[n], vol) && UnpublishReq(vol, n) !in reqs
    ensures Path(reqs, Init(start, |reqs|), es, Stays(n), out) && Freed(reqs, start, out, m, vol, n)
  {
    var s := Init(start, |reqs|);
    if !Holds(start[m], vol) {
      return [], s;
    }
    if x :| 0 <= x < |reqs| && reqs[x] == UnpublishReq(vol, m) {
      es, out := FreeByUnpublish(reqs, start, x, m, vol, n);
      return;
    }
    var q :| 0 <= q < |reqs| && Unblocked(reqs, start, reqs[q], vol);
    var node := reqs[q].node;
    assert reqs[q] == PublishReq(vol, node);
    es, out := [], s;
    if Holds(start[node], vol) {
      var x :| 0 <= x < |reqs| && reqs[x] == UnpublishReq(vol, node);
      es, out := FreeByUnpublish(reqs, start, x, node, vol, n);
    }
    es, out := FreeByMove(reqs, start, out, es, q, m, n);
  }

  // ----- The losing runs -----

  /** From a state in which `u` is poised over a list, its write loses publish `t`. */
  lemma StrikeLoses(reqs: seq<Request>, start: map<Id, seq<Entry>>, before: seq<Event>, s: System, n: Id, u: nat, t: nat, drives: seq<Entry>)
    returns (es: seq<Event>)
    requires u < |reqs| == |s.pcs| && t < |reqs| && u != t && n in s.servers && Path(reqs, Init(start, |reqs|), before, Stays(n), s)
    requires Poised(reqs, s, u, n, drives)
    requires reqs[t].PublishReq? && reqs[t].node == n && s.pcs[t].Ended? && s.pcs[t].result.Attached?
    requires !Holds(drives, reqs[t].vol) || (!reqs[u].RewriteReq? && reqs[u].vol == reqs[t].vol)
    ensures FairRun(reqs, Init(start, |reqs|), es, Stays(n)) && Loses(reqs, Run(reqs, Init(start, |reqs|), es), n)
  {
    Strike(reqs, s, u, n, drives);
    es := Go(reqs, Init(start, |reqs|), before, s, Turned(u), Stays(n));
    NotThere(drives, reqs[u], reqs[t].vol, s.pcs[t].result.channel);
    assert LosesAt(reqs, Step(reqs, s, Turned(u)), n, t);
  }

  /** From a state in which `u` is poised over a list of `n` without the volume of `t`: `t` publishes,
      then `u` writes. */
  lemma StaleListLoses(reqs: seq<Request>, start: map<Id, seq<Entry>>, before: seq<Event>, s: System, n: Id, u: nat, t: nat)
    returns (es: seq<Event>)
    requires u < |reqs| == |s.pcs| && t < |reqs| && u != t && n in s.servers && Path(reqs, Init(start, |reqs|), before, Stays(n), s)
    requires reqs[t].PublishReq? && reqs[t].node == n && s.pcs[t].Start? && LockFree(s, n)
    requires Poised(reqs, s, u, n, s.servers[n]) && !Holds(s.servers[n], reqs[t].vol) && HasRoom(s.servers[n])
    ensures FairRun(reqs, Init(start, |reqs|), es, Stays(n)) && Loses(reqs, Run(reqs, Init(start, |reqs|), es), n)
  {
    var drives := s.servers[n];
    var more := Publishes(reqs, s, t, None, Done, [], Stays(n));
    var s1 := Over(s, t, n, s.servers[n := drives + [Attachment(drives, reqs[t].vol)]], Attached(NextChannel(drives)));
    PathAppend(reqs, Init(start, |reqs|), before, s, more, Stays(n), s1);
    assert Poised(reqs, s1, u, n, drives);
    es := StrikeLoses(reqs, start, before + more, s1, n, u, t, drives);
  }

  /** Publish `t` has ended with its volume on `n`; `m`, if it listed the volume and `n` did not, has been left. */
  ghost predicate Published(reqs: seq<Request>, s: System, out: System, n: Id, t: nat, vol: Id, m: Id)
    requires t < |s.pcs| && n in s.servers
  {
    && |out.pcs| == |s.pcs| && (forall u :: 0 <= u < |s.pcs| && u != t ==> out.pcs[u] == s.pcs[u])
    && out.pcs[t].Ended? && out.pcs[t].result.Attached?
    && out.servers.Keys == s.servers.Keys && Holds(out.servers[n], vol)
    && (m in s.servers && m != n && (Holds(s.servers[m], vol) ==> !Holds(s.servers[n], vol)) ==> !Holds(out.servers[m], vol))
    && LocksOk(out) && (m != n && LockFree(s, m) ==> LockFree(out, m))
  }

  lemma OverLocks(s: System, t: nat, n: Id, servers: map<Id, seq<Entry>>, result: Result, m: Id)
    requires LocksOk(s) && t < |s.pcs|
    ensures LocksOk(Over(s, t, n, servers, result))
    ensures LockFree(s, m) && m != n ==> LockFree(Over(s, t, n, servers, result), m)
  {
  }

  lemma PublishFresh(reqs: seq<Request>, s: System, n: Id, t: nat, m: Id) returns (es: seq<Event>, out: System)
    requires t < |reqs| == |s.pcs| && n in s.servers && reqs[t].PublishReq? && reqs[t].node == n && s.pcs[t].Start?
    requires LockFree(s, n) && LocksOk(s) && !Holds(s.servers[n], reqs[t].vol) && HasRoom(s.servers[n])
    ensures Path(reqs, s, es, Stays(n), out) && Published(reqs, s, out, n, t, reqs[t].vol, m)
  {
    var vol, drives := reqs[t].vol, s.servers[n];
    var from := if m in s.servers && m != n && Holds(s.servers[m], vol) then Some(m) else None;
    es := Publishes(reqs, s, t, from, Done, if from.Some? then [m] else [], Stays(n));
    var servers := if from.Some? then s.servers[m := Removed(s.servers[m], vol)] else s.servers;
    var now := drives + [Attachment(drives, vol)];
    assert now[|drives|].volume == Some(vol);
    out := Over(s, t, n, servers[n := now], Attached(NextChannel(drives)));
    OverLocks(s, t, n, servers[n := now], Attached(NextChannel(drives)), m);
  }

  lemma PublishFirst(reqs: seq<Request>, start: map<Id, seq<Entry>>, before: seq<Event>, s: System, n: Id, t: nat, m: Id)
    returns (es: seq<Event>, out: System)
    requires t < |reqs| == |s.pcs| && n in s.servers && Path(reqs, Init(start, |reqs|), before, Stays(n), s)
    requires reqs[t].PublishReq? && reqs[t].node == n && s.pcs[t].Start? && LockFree(s, n) && LocksOk(s)
    requires !Holds(s.servers[n], reqs[t].vol) ==> HasRoom(s.servers[n])
    ensures Path(reqs, Init(start, |reqs|), es, Stays(n), out) && Published(reqs, s, out, n, t, reqs[t].vol, m)
  {
    var vol, more := reqs[t].vol, [];
    if Holds(s.servers[n], vol) {
      var result := Attached(ChannelOf(s.servers[n], vol));
      more := PublishesAgain(reqs, s, t, Stays(n));
      out := Over(s, t, n, s.servers, result);
      OverLocks(s, t, n, s.servers, result, m);
    } else {
      more, out := PublishFresh(reqs, s, n, t, m);
    }
    es := before + more;
    PathAppend(reqs, Init(start, |reqs|), before, s, more, Stays(n), out);
  }

  /** An unpublish of the same volume, once the publish is reported. */
  lemma UnpublishLoses(reqs: seq<Request>, start: map<Id, seq<Entry>>, n: Id, u: nat, t: nat) returns (es: seq<Event>)
    requires n in start && HasRoom(start[n]) && u < |reqs| && t < |reqs|
    requires reqs[u].UnpublishReq? && reqs[u].node == n && reqs[t] == PublishReq(reqs[u].vol, n)
    ensures FairRun(reqs, Init(start, |reqs|), es, Stays(n)) && Loses(reqs, Run(reqs, Init(start, |reqs|), es), n)
  {
    var s1;
    es, s1 := PublishFirst(reqs, start, [], Init(start, |reqs|), n, t, n);
    var more, s2 := PoiseFree(reqs, s1, u, n, Stays(n));
    PathAppend(reqs, Init(start, |reqs|), es, s1, more, Stays(n), s2);
    es := StrikeLoses(reqs, start, es + more, s2, n, u, t, s1.servers[n]);
  }

  /** A migration of the same volume, once the publish is reported. */
  lemma MigrationLoses(reqs: seq<Request>, start: map<Id, seq<Entry>>, n: Id, u: nat, t: nat) returns (es: seq<Event>)
    requires n in start && HasRoom(start[n]) && u < |reqs| && t < |reqs|
    requires reqs[u].PublishReq? && Takes(reqs, start, reqs[u], n) && reqs[t] == PublishReq(reqs[u].vol, n)
    requires UnpublishReq(reqs[u].vol, n) !in reqs
    ensures FairRun(reqs, Init(start, |reqs|), es, Stays(n)) && Loses(reqs, Run(reqs, Init(start, |reqs|), es), n)
  {
    var vol, m := reqs[u].vol, reqs[u].node;
    var s := Init(start, |reqs|);
    es := [];
    if Holds(start[n], vol) { es, s := FreeTarget(reqs, start, m, vol, n); }
    var s1;
    es, s1 := PublishFirst(reqs, start, es, s, n, t, m);
    var more, s2 := PoiseMove(reqs, s1, u, n);
    PathAppend(reqs, Init(start, |reqs|), es, s1, more, Stays(n), s2);
    es := StrikeLoses(reqs, start, es + more, s2, n, u, t, s1.servers[n]);
  }

  /** A migration of another volume, poised before the publish. */
  lemma StaleMigrationLoses(reqs: seq<Request>, start: map<Id, seq<Entry>>, n: Id, u: nat, t: nat) returns (es: seq<Event>)
    requires n in start && HasRoom(start[n]) && u < |reqs| && t < |reqs|
    requires reqs[u].PublishReq? && Takes(reqs, start, reqs[u], n) && PublishReq(reqs[u].vol, n) !in reqs
    requires reqs[t].PublishReq? && reqs[t].node == n && !Holds(start[n], reqs[t].vol)
    ensures FairRun(reqs, Init(start, |reqs|), es, Stays(n)) && Loses(reqs, Run(reqs, Init(start, |reqs|), es), n)
  {
    var s;
    es, s := FreeTarget(reqs, start, reqs[u].node, reqs[u].vol, n);
    var more, s1 := PoiseMove(reqs, s, u, n);
    PathAppend(reqs, Init(start, |reqs|), es, s, more, Stays(n), s1);
    es := StaleListLoses(reqs, start, es + more, s1, n, u, t);
  }

  /** Every unpublish from `n`, switch of `n` and migration away from it that is a threat does lose a
      reported publish in some interleaving. */
  lemma ThreatLoses(reqs: seq<Request>, start: map<Id, seq<Entry>>, n: Id, u: nat, t: nat) returns (es: seq<Event>)
    requires n in start && HasRoom(start[n]) && u < |reqs| && t < |reqs| && Threat(reqs, start, n, u, t)
    ensures Vanish(n) !in es && RoomyRun(reqs, Init(start, |reqs|), es) && Loses(reqs, Run(reqs, Init(start, |reqs|), es), n)
  {
    if reqs[u].PublishReq? {
      var vol := reqs[u].vol;
      if x :| 0 <= x < |reqs| && reqs[x] == PublishReq(vol, n) {
        if y :| 0 <= y < |reqs| && reqs[y] == UnpublishReq(vol, n) {
          es := UnpublishLoses(reqs, start, n, y, x);
        } else {
          es := MigrationLoses(reqs, start, n, u, x);
        }
      } else {
        assert reqs[t] == PublishReq(reqs[t].vol, n);
        es := StaleMigrationLoses(reqs, start, n, u, t);
      }
    } else if reqs[u].UnpublishReq? && reqs[u].vol == reqs[t].vol {
      es := UnpublishLoses(reqs, start, n, u, t);
    } else {
      var s1;
      es, s1 := PoiseFree(reqs, Init(start, |reqs|), u, n, Stays(n));
      es := StaleListLoses(reqs, start, es, s1, n, u, t);
    }
    FairIs(reqs, Init(start, |reqs|), es, n);
  }

  /** This run, if `n` stays and every attach has a free channel, keeps every publish to `n` that it
      reports. */
  ghost predicate KeepsReported(reqs: seq<Request>, start: map<Id, seq<Entry>>, n: Id, es: seq<Event>) {
    var s := Init(start, |reqs|);
    Vanish(n) !in es && RoomyRun(reqs, s, es) ==> !Loses(reqs, Run(reqs, s, es), n)
  }

  /** The exact condition for lost updates: for any requests, no interleaving loses a publish to `n`
      that reported success, with any failures and whatever mounted_on says, if and only if no
      request threatens one. */
  lemma NothingLostIff(reqs: seq<Request>, start: map<Id, seq<Entry>>, n: Id)
    requires n in start && OnceEach(start[n]) && HasRoom(start[n])
    ensures (forall es :: KeepsReported(reqs, start, n, es)) <==> !Threatened(reqs, start, n)
  {
    if Threatened(reqs, start, n) {
      var u, t :| 0 <= u < |reqs| && 0 <= t < |reqs| && Threat(reqs, start, n, u, t);
      var es := ThreatLoses(reqs, start, n, u, t);
      assert !KeepsReported(reqs, start, n, es);
    } else {
      NoThreat(reqs, start, n);
      forall es | Vanish(n) !in es ensures KeepsReported(reqs, start, n, es) {
        if Private(reqs, start, n, start[n]) {
          KeptAfter(reqs, start, es, n);
        } else {
          SettledAfter(reqs, start, es, n);
        }
      }
    }
  }

  // ----- Single attachment under concurrency -----

  /** The servers that hold `vol` or that a request publishes it to. */
  function Homes(reqs: seq<Request>, servers: map<Id, seq<Entry>>, vol: Id): set<Id> {
    set m | m in servers && (Holds(servers[m], vol) || PublishReq(vol, m) in reqs)
  }

  /** No server other than those in `homes` lists `vol`, nor does any list read from or meant for one. */
  ghost predicate ThreadHome(reqs: seq<Request>, home: set<Id>, homes: set<Id>, vol: Id, pc: Pc, req: Request) {
    match pc
    case Critical(_, Entered) => req in reqs && req.PublishReq?
    case Critical(_, Moving(drives, source, sourceDrives)) =>
      InHome(reqs, home, homes, vol, req, drives) && (source !in homes ==> !Holds(sourceDrives, vol))
    case Critical(_, Fetched(drives)) => InHome(reqs, home, homes, vol, req, drives)
    case Critical(_, Migrating(drives, _)) => InHome(reqs, home, homes, vol, req, drives)
    case Critical(_, Attaching(drives)) => InHome(reqs, home, homes, vol, req, drives)
    case Detaching(kept) => req.node !in homes ==> !Holds(kept, vol)
    case Rewriting(drives) => req.node !in homes ==> !Holds(drives, vol)
    case _ => true
  }

  ghost predicate InHome(reqs: seq<Request>, home: set<Id>, homes: set<Id>, vol: Id, req: Request, drives: seq<Entry>) {
    req in reqs && req.PublishReq? && req.node in home && (req.node !in homes ==> !Holds(drives, vol))
  }

  ghost predicate AtHome(reqs: seq<Request>, home: set<Id>, homes: set<Id>, vol: Id, s: System) {
    && |s.pcs| == |reqs| && s.servers.Keys <= home
    && (forall m :: m in s.servers && m !in homes ==> !Holds(s.servers[m], vol))
    && (forall t :: 0 <= t < |reqs| ==> ThreadHome(reqs, home, homes, vol, s.pcs[t], reqs[t]))
  }

  lemma HoldsAfter(drives: seq<Entry>, other: Id, vol: Id)
    ensures !Holds(drives, vol) ==> !Holds(Removed(drives, other), vol)
    ensures !Holds(drives, vol) && other != vol ==> !Holds(drives + [Attachment(drives, other)], vol)
  {
    RemovedFacts(drives, other);
  }

  lemma AtHomeCritical(reqs: seq<Request>, home: set<Id>, homes: set<Id>, vol: Id, s: System, t: nat, e: Event)
    requires AtHome(reqs, home, homes, vol, s) && e.Turn? && t < |reqs| && reqs[t].PublishReq? && s.pcs[t].Critical?
    requires forall m :: m in home && PublishReq(vol, m) in reqs ==> m in homes
    ensures AtHome(reqs, home, homes, vol, StepCritical(s, t, reqs[t].vol, reqs[t].node, s.pcs[t].lock, s.pcs[t].phase, e))
  {
    var phase, lock := s.pcs[t].phase, s.pcs[t].lock;
    var out := StepCritical(s, t, reqs[t].vol, reqs[t].node, lock, phase, e);
    assert ThreadHome(reqs, home, homes, vol, s.pcs[t], reqs[t]);
    if phase.Moving? {
      AtHomeMoving(reqs, home, homes, vol, s, t, e);
    } else if phase.Attaching? {
      AtHomeAttaching(reqs, home, homes, vol, s, t, e);
    } else {
      AtHomeGoto(reqs, home, homes, vol, s, t, out.pcs[t]);
    }
  }

  lemma AtHomeMoving(reqs: seq<Request>, home: set<Id>, homes: set<Id>, vol: Id, s: System, t: nat, e: Event)
    requires AtHome(reqs, home, homes, vol, s) && e.Turn? && t < |reqs| && reqs[t].PublishReq? && s.pcs[t].Critical?
    requires s.pcs[t].phase.Moving?
    ensures AtHome(reqs, home, homes, vol, StepCritical(s, t, reqs[t].vol, reqs[t].node, s.pcs[t].lock, s.pcs[t].phase, e))
  {
    var phase := s.pcs[t].phase;
    var kept := Removed(phase.sourceDrives, reqs[t].vol);
    assert ThreadHome(reqs, home, homes, vol, s.pcs[t], reqs[t]);
    HoldsAfter(phase.sourceDrives, reqs[t].vol, vol);
    AtHomePut(reqs, home, homes, vol, s, phase.source, kept, e.write);
    AtHomeGoto(reqs, home, homes, vol, PutDrives(s, phase.source, kept, e.write), t, Critical(s.pcs[t].lock, Attaching(phase.drives)));
  }

  lemma AtHomeAttaching(reqs: seq<Request>, home: set<Id>, homes: set<Id>, vol: Id, s: System, t: nat, e: Event)
    requires AtHome(reqs, home, homes, vol, s) && e.Turn? && t < |reqs| && reqs[t].PublishReq? && s.pcs[t].Critical?
    requires forall m :: m in home && PublishReq(vol, m) in reqs ==> m in homes
    requires s.pcs[t].phase.Attaching?
    ensures AtHome(reqs, home, homes, vol, StepCritical(s, t, reqs[t].vol, reqs[t].node, s.pcs[t].lock, s.pcs[t].phase, e))
  {
    var drives, node := s.pcs[t].phase.drives, reqs[t].node;
    var now := drives + [Attachment(drives, reqs[t].vol)];
    assert ThreadHome(reqs, home, homes, vol, s.pcs[t], reqs[t]);
    assert reqs[t] == PublishReq(reqs[t].vol, node);
    HoldsAfter(drives, reqs[t].vol, vol);
    AtHomePut(reqs, home, homes, vol, s, node, now, e.write);
    AtHomeGoto(reqs, home, homes, vol, PutDrives(s, node, now, e.write), t,
               StepCritical(s, t, reqs[t].vol, node, s.pcs[t].lock, s.pcs[t].phase, e).pcs[t]);
  }

  lemma AtHomePut(reqs: seq<Request>, home: set<Id>, homes: set<Id>, vol: Id, s: System, node: Id, drives: seq<Entry>, write: Write)
    requires AtHome(reqs, home, homes, vol, s) && (node !in homes ==> !Holds(drives, vol))
    ensures AtHome(reqs, home, homes, vol, PutDrives(s, node, drives, write))
  {
  }

  lemma AtHomeGoto(reqs: seq<Request>, home: set<Id>, homes: set<Id>, vol: Id, s: System, t: nat, pc: Pc)
    requires AtHome(reqs, home, homes, vol, s) && t < |reqs| && ThreadHome(reqs, home, homes, vol, pc, reqs[t])
    ensures forall owner :: AtHome(reqs, home, homes, vol, Goto(s, t, pc).(owner := owner))
  {
  }

  lemma AtHomeStep(reqs: seq<Request>, home: set<Id>, homes: set<Id>, vol: Id, s: System, e: Event)
    requires AtHome(reqs, home, homes, vol, s)
    requires forall m :: m in home && PublishReq(vol, m) in reqs ==> m in homes
    ensures AtHome(reqs, home, homes, vol, Step(reqs, s, e))
  {
    if e.Turn? && e.t < |reqs| {
      var t := e.t;
      assert ThreadHome(reqs, home, homes, vol, s.pcs[t], reqs[t]);
      match reqs[t] {
        case UnpublishReq(_, _) => AtHomeUnpublish(reqs, home, homes, vol, s, t, e);
        case RewriteReq(_) => AtHomeRewrite(reqs, home, homes, vol, s, t, e);
        case PublishReq(_, _) => if s.pcs[t].Critical? { AtHomeCritical(reqs, home, homes, vol, s, t, e); }
      }
    }
  }

  lemma AtHomeRewrite(reqs: seq<Request>, home: set<Id>, homes: set<Id>, vol: Id, s: System, t: nat, e: Event)
    requires AtHome(reqs, home, homes, vol, s) && e.Turn? && t < |reqs| && reqs[t].RewriteReq?
    ensures AtHome(reqs, home, homes, vol, StepRewrite(s, t, reqs[t].node, e))
  {
    var node, out := reqs[t].node, StepRewrite(s, t, reqs[t].node, e);
    assert ThreadHome(reqs, home, homes, vol, s.pcs[t], reqs[t]);
    var s1 := if s.pcs[t].Rewriting? then PutDrives(s, node, s.pcs[t].drives, e.write) else s;
    if s.pcs[t].Rewriting? { AtHomePut(reqs, home, homes, vol, s, node, s.pcs[t].drives, e.write); }
    AtHomeGoto(reqs, home, homes, vol, s1, t, out.pcs[t]);
    assert out == Goto(s1, t, out.pcs[t]).(owner := s1.owner);
  }

  lemma AtHomeUnpublish(reqs: seq<Request>, home: set<Id>, homes: set<Id>, vol: Id, s: System, t: nat, e: Event)
    requires AtHome(reqs, home, homes, vol, s) && e.Turn? && t < |reqs| && reqs[t].UnpublishReq?
    ensures AtHome(reqs, home, homes, vol, StepUnpublish(s, t, reqs[t].vol, reqs[t].node, e))
  {
    var node := reqs[t].node;
    assert ThreadHome(reqs, home, homes, vol, s.pcs[t], reqs[t]);
    if node in s.servers { HoldsAfter(s.servers[node], reqs[t].vol, vol); }
    var s1 := if s.pcs[t].Detaching? then PutDrives(s, node, s.pcs[t].kept, e.write) else s;
    var out := StepUnpublish(s, t, reqs[t].vol, node, e);
    if s.pcs[t].Detaching? { AtHomePut(reqs, home, homes, vol, s, node, s.pcs[t].kept, e.write); }
    AtHomeGoto(reqs, home, homes, vol, s1, t, out.pcs[t]);
    assert out == Goto(s1, t, out.pcs[t]).(owner := s1.owner);
  }

  lemma {:induction false} AtHomeRun(reqs: seq<Request>, home: set<Id>, homes: set<Id>, vol: Id, s: System, es: seq<Event>)
    requires AtHome(reqs, home, homes, vol, s)
    requires forall m :: m in home && PublishReq(vol, m) in reqs ==> m in homes
    ensures AtHome(reqs, home, homes, vol, Run(reqs, s, es))
    decreases |es|
  {
    if es != [] {
      AtHomeStep(reqs, home, homes, vol, s, es[0]);
      AtHomeRun(reqs, home, homes, vol, Step(reqs, s, es[0]), es[1..]);
    }
  }

  /** No two servers list `vol`. */
  ghost predicate AttachedOnce(s: System, vol: Id) {
    forall a, b :: a in s.servers && b in s.servers && Holds(s.servers[a], vol) && Holds(s.servers[b], vol) ==> a == b
  }

  lemma ListOf(m: set<Id>) returns (s: seq<Id>)
    ensures forall x :: x in s <==> x in m
  {
    s := [];
    if m != {} {
      var x :| x in m;
      var rest := ListOf(m - {x});
      s := [x] + rest;
    }
  }

  /** A publish whose detach is rejected leaves the volume where it was as well. */
  lemma RejectedDetach(reqs: seq<Request>, servers: map<Id, seq<Entry>>, vol: Id, a: Id, t: nat) returns (es: seq<Event>)
    requires a in servers && Holds(servers[a], vol) && t < |reqs| && reqs[t].PublishReq? && reqs[t].vol == vol
    requires reqs[t].node in servers && !Holds(servers[reqs[t].node], vol)
    ensures FairRun(reqs, Init(servers, |reqs|), es, ExactMounts) && !AttachedOnce(Run(reqs, Init(servers, |reqs|), es), vol)
  {
    var s, b := Init(servers, |reqs|), reqs[t].node;
    var holders := MountedOn(Fleet(servers, map[]), vol);
    var mounts := ListOf(holders);
    assert (set m | m in mounts) == holders;
    assert a in holders && a in mounts;
    assert FirstOther(mounts, b).value in mounts;
    es := Publishes(reqs, s, t, FirstOther(mounts, b), Rejected, mounts, ExactMounts);
    var drives := servers[b];
    var now := drives + [Attachment(drives, vol)];
    assert now[|drives|].volume == Some(vol);
    assert Holds(Run(reqs, s, es).servers[a], vol) && Holds(Run(reqs, s, es).servers[b], vol);
  }

  /** Two publishes hold different locks; both read that the volume is unattached before either writes. */
  lemma TwoPublishesRace(reqs: seq<Request>, servers: map<Id, seq<Entry>>, vol: Id, t: nat, u: nat) returns (es: seq<Event>)
    requires t < |reqs| && u < |reqs| && reqs[t].PublishReq? && reqs[u].PublishReq? && reqs[t].vol == reqs[u].vol == vol
    requires reqs[t].node != reqs[u].node && reqs[t].node in servers && reqs[u].node in servers
    requires MountedOn(Fleet(servers, map[]), vol) == {}
    ensures FairRun(reqs, Init(servers, |reqs|), es, ExactMounts) && !AttachedOnce(Run(reqs, Init(servers, |reqs|), es), vol)
  {
    var s, a, b := Init(servers, |reqs|), reqs[t].node, reqs[u].node;
    assert a !in MountedOn(Fleet(servers, map[]), vol) && b !in MountedOn(Fleet(servers, map[]), vol);
    assert (set m: Id | m in []) == {};
    var first := EnterAndRead(reqs, s, t, [], ExactMounts);
    var s1 := Inside(s, t, a, Attaching(servers[a]));
    var second := EnterAndRead(reqs, s1, u, [], ExactMounts);
    var s2 := Inside(s1, u, b, Attaching(servers[b]));
    PathAppend(reqs, s, first, s1, second, ExactMounts, s2);
    es := Go(reqs, s, first + second, s2, Turned(t), ExactMounts);
    var s3 := Step(reqs, s2, Turned(t));
    es := Go(reqs, s, es, s3, Turned(u), ExactMounts);
    BothLand(reqs, s2, t, u, servers[a], servers[b]);
    assert !AttachedOnce(Step(reqs, s3, Turned(u)), vol);
  }

  lemma BothLand(reqs: seq<Request>, s: System, t: nat, u: nat, drives: seq<Entry>, drives2: seq<Entry>)
    requires t < |reqs| == |s.pcs| && u < |reqs| && reqs[t].PublishReq? && reqs[u].PublishReq? && reqs[t].vol == reqs[u].vol
    requires reqs[t].node in s.servers && reqs[u].node in s.servers && reqs[t].node != reqs[u].node
    requires s.pcs[t].Critical? && s.pcs[t].phase == Attaching(drives)
    requires s.pcs[u].Critical? && s.pcs[u].phase == Attaching(drives2)
    ensures !AttachedOnce(Step(reqs, Step(reqs, s, Turned(t)), Turned(u)), reqs[t].vol)
  {
    var a, b := reqs[t].node, reqs[u].node;
    Lands(reqs, s, t, drives);
    var mid := Step(reqs, s, Turned(t));
    Lands(reqs, mid, u, drives2);
    var out := Step(reqs, mid, Turned(u));
    assert out.servers[a] == mid.servers[a];
  }

  /** The last request of a publish puts the volume on the server and leaves the others alone. */
  lemma Lands(reqs: seq<Request>, s: System, t: nat, drives: seq<Entry>)
    requires t < |reqs| == |s.pcs| && reqs[t].PublishReq? && reqs[t].node in s.servers
    requires s.pcs[t].Critical? && s.pcs[t].phase == Attaching(drives)
    ensures var out := Step(reqs, s, Turned(t));
            && reqs[t].node in out.servers && Holds(out.servers[reqs[t].node], reqs[t].vol)
            && out.servers == s.servers[reqs[t].node := out.servers[reqs[t].node]] && |out.pcs| == |s.pcs|
            && forall u :: 0 <= u < |s.pcs| && u != t ==> out.pcs[u] == s.pcs[u]
  {
    var now := drives + [Attachment(drives, reqs[t].vol)];
    assert now[|drives|].volume == Some(reqs[t].vol);
  }

  /** Two homes are enough to attach the volume twice, in a run in which every mounted_on is exact. */
  lemma TwoHomes(reqs: seq<Request>, servers: map<Id, seq<Entry>>, vol: Id, a: Id, b: Id) returns (es: seq<Event>)
    requires a in Homes(reqs, servers, vol) && b in Homes(reqs, servers, vol) && a != b
    ensures FairRun(reqs, Init(servers, |reqs|), es, ExactMounts) && !AttachedOnce(Run(reqs, Init(servers, |reqs|), es), vol)
  {
    if Holds(servers[a], vol) && Holds(servers[b], vol) {
      es := [];
    } else if m :| m in servers && Holds(servers[m], vol) {
      var other := if Holds(servers[a], vol) then b else a;
      var t :| 0 <= t < |reqs| && reqs[t] == PublishReq(vol, other);
      es := RejectedDetach(reqs, servers, vol, m, t);
    } else {
      var t :| 0 <= t < |reqs| && reqs[t] == PublishReq(vol, a);
      var u :| 0 <= u < |reqs| && reqs[u] == PublishReq(vol, b);
      es := TwoPublishesRace(reqs, servers, vol, t, u);
    }
  }

  ghost predicate KeepsSingle(reqs: seq<Request>, servers: map<Id, seq<Entry>>, vol: Id, es: seq<Event>) {
    AttachedOnce(Run(reqs, Init(servers, |reqs|), es), vol)
  }

  ghost predicate KeepsSingleIfExact(reqs: seq<Request>, servers: map<Id, seq<Entry>>, vol: Id, es: seq<Event>) {
    FairRun(reqs, Init(servers, |reqs|), es, ExactMounts) ==> KeepsSingle(reqs, servers, vol, es)
  }

  /** The exact condition for single attachment under concurrency, migrations and failures included:
      a volume is on one server at most in every interleaving if and only if at most one server
      holds it or is to get it. Whether mounted_on is exact makes no difference. */
  lemma AttachedOnceIff(reqs: seq<Request>, servers: map<Id, seq<Entry>>, vol: Id)
    ensures var one := forall a, b :: a in Homes(reqs, servers, vol) && b in Homes(reqs, servers, vol) ==> a == b;
            && ((forall es :: KeepsSingle(reqs, servers, vol, es)) <==> one)
            && ((forall es :: KeepsSingleIfExact(reqs, servers, vol, es)) <==> one)
  {
    var homes := Homes(reqs, servers, vol);
    if a, b :| a in homes && b in homes && a != b {
      var es := TwoHomes(reqs, servers, vol, a, b);
      assert !KeepsSingle(reqs, servers, vol, es) && !KeepsSingleIfExact(reqs, servers, vol, es);
    } else {
      forall es ensures KeepsSingle(reqs, servers, vol, es) {
        AtHomeRun(reqs, servers.Keys, homes, vol, Init(servers, |reqs|), es);
      }
    }
  }
}

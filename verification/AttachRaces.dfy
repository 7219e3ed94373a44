/** Concurrent publishes, migrations and unpublishes, one remote request per step.

    A publish holds its server's lock from before its first GET to its end; an unpublish takes no
    lock, and a migration rewrites the old server under the new server's lock only. The load balancer
    controller, another process, reads a server and writes it back, drives included, when it switches
    its NIC to manual mode. */
module AttachRaces {
  import opened Base
  import opened Channels
  import opened Attach

  datatype Request =
    | PublishReq(vol: Id, node: Id)
    | UnpublishReq(vol: Id, node: Id)
    | RewriteReq(node: Id)

  /** Where a publish stands while it holds its lock; the lists are what it has read. */
  datatype Phase =
    | Entered
    | Fetched(drives: seq<Entry>)
    | Migrating(drives: seq<Entry>, source: Id)
    | Moving(drives: seq<Entry>, source: Id, sourceDrives: seq<Entry>)
    | Attaching(drives: seq<Entry>)

  datatype Pc =
    | Start
    | Waiting(lock: nat)
    | Critical(lock: nat, phase: Phase)
    | Detaching(kept: seq<Entry>)
    | Rechecking
    | Rewriting(drives: seq<Entry>)
    | Rewritten
    | Ended(result: Result)

  /** `locks` is the lazily filled lock map, `owner` the thread that holds each locked lock. */
  datatype System = System(servers: map<Id, seq<Entry>>, locks: map<Id, nat>, made: nat, owner: map<nat, nat>, pcs: seq<Pc>)

  /** Thread `t` takes its next step with these answers, or a server disappears. */
  datatype Event =
    | Turn(t: nat, answer: Answer, write: Write, mounts: seq<Id>)
    | Vanish(node: Id)

  function Goto(s: System, t: nat, pc: Pc): System
    requires t < |s.pcs|
  {
    s.(pcs := s.pcs[t := pc])
  }

  /** The deferred unlock. */
  function Leave(s: System, t: nat, lock: nat, result: Result): System
    requires t < |s.pcs|
  {
    s.(pcs := s.pcs[t := Ended(result)], owner := s.owner - {lock})
  }

  /** An update of a server that is gone is rejected. */
  function Effective(s: System, node: Id, write: Write): Write {
    if node in s.servers then write else Rejected
  }

  function PutDrives(s: System, node: Id, drives: seq<Entry>, write: Write): System {
    if Effective(s, node, write).Rejected? then s else s.(servers := s.servers[node := drives])
  }

  function StepPublish(s: System, t: nat, vol: Id, node: Id, e: Event): System
    requires t < |s.pcs| && e.Turn?
  {
    match s.pcs[t]
    case Start =>
      if node in s.locks then Goto(s, t, Waiting(s.locks[node]))
      else Goto(s.(locks := s.locks[node := s.made], made := s.made + 1), t, Waiting(s.made))
    case Waiting(lock) =>
      if lock in s.owner then s else Goto(s.(owner := s.owner[lock := t]), t, Critical(lock, Entered))
    case Critical(lock, phase) => StepCritical(s, t, vol, node, lock, phase, e)
    case _ => s
  }

  function StepCritical(s: System, t: nat, vol: Id, node: Id, lock: nat, phase: Phase, e: Event): System
    requires t < |s.pcs| && e.Turn?
  {
    match phase
    case Entered =>
      if !Get(node in s.servers, e.answer).Found? then Leave(s, t, lock, Failure)
      else if Holds(s.servers[node], vol) then Leave(s, t, lock, Attached(ChannelOf(s.servers[node], vol)))
      else Goto(s, t, Critical(lock, Fetched(s.servers[node])))
    case Fetched(drives) =>
      if !e.answer.Found? then Leave(s, t, lock, Failure)
      else (match FirstOther(e.mounts, node)
            case None => Goto(s, t, Critical(lock, Attaching(drives)))
            case Some(source) => Goto(s, t, Critical(lock, Migrating(drives, source))))
    case Migrating(drives, source) =>
      (match Get(source in s.servers, e.answer)
       case Error => Leave(s, t, lock, Failure)
       case NotFound => Goto(s, t, Critical(lock, Attaching(drives)))
       case Found => Goto(s, t, Critical(lock, Moving(drives, source, s.servers[source]))))
    case Moving(drives, source, sourceDrives) =>
      Goto(PutDrives(s, source, Removed(sourceDrives, vol), e.write), t, Critical(lock, Attaching(drives)))
    case Attaching(drives) =>
      Leave(PutDrives(s, node, drives + [Attachment(drives, vol)], e.write), t, lock,
            if Effective(s, node, e.write).Done? then Attached(NextChannel(drives)) else Failure)
  }

  function StepUnpublish(s: System, t: nat, vol: Id, node: Id, e: Event): System
    requires t < |s.pcs| && e.Turn?
  {
    match s.pcs[t]
    case Start =>
      (match Get(node in s.servers, e.answer)
       case Error => Goto(s, t, Ended(Failure))
       case NotFound => Goto(s, t, Ended(Detached))
       case Found => if Holds(s.servers[node], vol) then Goto(s, t, Detaching(Removed(s.servers[node], vol)))
                     else Goto(s, t, Ended(Detached)))
    case Detaching(kept) =>
      Goto(PutDrives(s, node, kept, e.write), t, if Effective(s, node, e.write).Done? then Ended(Detached) else Rechecking)
    case Rechecking =>
      (match Get(node in s.servers, e.answer)
       case Error => Goto(s, t, Ended(Failure))
       case NotFound => Goto(s, t, Ended(Detached))
       case Found => Goto(s, t, Ended(if Holds(s.servers[node], vol) then Failure else Detached)))
    case _ => s
  }

  /** ensureNodeManualMode, as far as the drive list goes: it writes back what it has read. */
  function StepRewrite(s: System, t: nat, node: Id, e: Event): System
    requires t < |s.pcs| && e.Turn?
  {
    match s.pcs[t]
    case Start => Goto(s, t, if Get(node in s.servers, e.answer).Found? then Rewriting(s.servers[node]) else Rewritten)
    case Rewriting(drives) => Goto(PutDrives(s, node, drives, e.write), t, Rewritten)
    case _ => s
  }

  function Step(reqs: seq<Request>, s: System, e: Event): System {
    match e
    case Vanish(node) => s.(servers := s.servers - {node})
    case Turn(t, _, _, _) =>
      if t >= |reqs| || t >= |s.pcs| then s
      else match reqs[t]
           case PublishReq(vol, node) => StepPublish(s, t, vol, node, e)
           case UnpublishReq(vol, node) => StepUnpublish(s, t, vol, node, e)
           case RewriteReq(node) => StepRewrite(s, t, node, e)
  }

  function Run(reqs: seq<Request>, s: System, es: seq<Event>): System
    decreases |es|
  {
    if es == [] then s else Run(reqs, Step(reqs, s, es[0]), es[1..])
  }

  function Init(servers: map<Id, seq<Entry>>, threads: nat): System {
    System(servers, map[], 0, map[], seq(threads, _ => Start))
  }

  // ----- Channel uniqueness: every interleaving, with or without locks -----

  ghost predicate DistinctChannels(drives: seq<Entry>) {
    forall i, j :: 0 <= i < j < |drives| ==> drives[i].channel != drives[j].channel
  }

  ghost predicate DistinctPc(pc: Pc) {
    match pc
    case Critical(_, Fetched(drives)) => DistinctChannels(drives)
    case Critical(_, Migrating(drives, _)) => DistinctChannels(drives)
    case Critical(_, Moving(drives, _, sourceDrives)) => DistinctChannels(drives) && DistinctChannels(sourceDrives)
    case Critical(_, Attaching(drives)) => DistinctChannels(drives)
    case Detaching(kept) => DistinctChannels(kept)
    case Rewriting(drives) => DistinctChannels(drives)
    case _ => true
  }

  /** No server list, and no list any thread has in hand, has two entries on one channel. */
  ghost predicate Distinct(s: System) {
    && (forall n :: n in s.servers ==> DistinctChannels(s.servers[n]))
    && (forall t :: 0 <= t < |s.pcs| ==> DistinctPc(s.pcs[t]))
  }

  /** A thread about to attach has a free slot in the list it has read. */
  ghost predicate Room(s: System, e: Event) {
    e.Turn? && e.t < |s.pcs| && s.pcs[e.t].Critical? && s.pcs[e.t].phase.Attaching? ==> HasRoom(s.pcs[e.t].phase.drives)
  }

  lemma {:induction false} RemovedDistinct(drives: seq<Entry>, vol: Id)
    requires DistinctChannels(drives)
    ensures DistinctChannels(Removed(drives, vol))
  {
    if drives != [] {
      var front := drives[..|drives| - 1];
      RemovedDistinct(front, vol);
      forall i | 0 <= i < |Removed(front, vol)|
        ensures Removed(front, vol)[i].channel != drives[|drives| - 1].channel
      {
        assert Removed(front, vol)[i] in front;
      }
    }
  }

  /** Attaching keeps channels distinct exactly when there is room. */
  lemma AttachDistinctIff(drives: seq<Entry>, vol: Id)
    requires DistinctChannels(drives)
    ensures DistinctChannels(drives + [Attachment(drives, vol)]) <==> HasRoom(drives)
  {
    var out := drives + [Attachment(drives, vol)];
    NextChannelComplete(drives);
    if !HasRoom(drives) {
      var i :| 0 <= i < |drives| && drives[i].channel == NextChannel(drives);
      assert out[i].channel == out[|drives|].channel;
    }
  }

  lemma DistinctCritical(s: System, t: nat, vol: Id, node: Id, lock: nat, phase: Phase, e: Event)
    requires Distinct(s) && Room(s, e) && e.Turn? && e.t == t < |s.pcs| && s.pcs[t] == Critical(lock, phase)
    ensures Distinct(StepCritical(s, t, vol, node, lock, phase, e))
  {
    assert DistinctPc(s.pcs[t]);
    match phase {
      case Moving(_, source, sourceDrives) =>
        RemovedDistinct(sourceDrives, vol);
        DistinctPut(s, source, Removed(sourceDrives, vol), e.write);
      case Attaching(drives) =>
        AttachDistinctIff(drives, vol);
        DistinctPut(s, node, drives + [Attachment(drives, vol)], e.write);
      case _ =>
    }
  }

  lemma DistinctPut(s: System, node: Id, drives: seq<Entry>, write: Write)
    requires Distinct(s) && DistinctChannels(drives)
    ensures Distinct(PutDrives(s, node, drives, write))
  {
  }

  lemma DistinctStep(reqs: seq<Request>, s: System, e: Event)
    requires Distinct(s) && Room(s, e)
    ensures Distinct(Step(reqs, s, e))
  {
    if e.Turn? && e.t < |reqs| && e.t < |s.pcs| {
      var t := e.t;
      match reqs[t] {
        case PublishReq(vol, node) =>
          if s.pcs[t].Critical? { DistinctCritical(s, t, vol, node, s.pcs[t].lock, s.pcs[t].phase, e); }
        case UnpublishReq(vol, node) => DistinctUnpublish(s, t, vol, node, e);
        case RewriteReq(node) => DistinctRewrite(s, t, node, e);
      }
    }
  }

  lemma DistinctRewrite(s: System, t: nat, node: Id, e: Event)
    requires Distinct(s) && e.Turn? && t < |s.pcs|
    ensures Distinct(StepRewrite(s, t, node, e))
  {
    assert DistinctPc(s.pcs[t]);
  }

  lemma DistinctUnpublish(s: System, t: nat, vol: Id, node: Id, e: Event)
    requires Distinct(s) && e.Turn? && t < |s.pcs|
    ensures Distinct(StepUnpublish(s, t, vol, node, e))
  {
    assert DistinctPc(s.pcs[t]);
    if node in s.servers { RemovedDistinct(s.servers[node], vol); }
  }

  ghost predicate RoomyRun(reqs: seq<Request>, s: System, es: seq<Event>)
    decreases |es|
  {
    es != [] ==> Room(s, es[0]) && RoomyRun(reqs, Step(reqs, s, es[0]), es[1..])
  }

  /** For any mix of publishes, migrations and unpublishes, in any interleaving and with any
      failures, no server ever has two drives on one channel. */
  lemma {:induction false} UniqueChannels(reqs: seq<Request>, s: System, es: seq<Event>)
    requires Distinct(s) && RoomyRun(reqs, s, es)
    ensures Distinct(Run(reqs, s, es))
    decreases |es|
  {
    if es != [] {
      DistinctStep(reqs, s, es[0]);
      UniqueChannels(reqs, Step(reqs, s, es[0]), es[1..]);
    }
  }

  // ----- Locks -----

  /** Lock objects are distinct, every thread uses its server's lock, and a critical thread owns it. */
  ghost predicate Locked(reqs: seq<Request>, s: System) {
    && |s.pcs| == |reqs|
    && Injective(s.locks) && (forall n :: n in s.locks ==> s.locks[n] < s.made)
    && (forall t :: 0 <= t < |reqs| && (s.pcs[t].Waiting? || s.pcs[t].Critical?) ==>
          reqs[t].PublishReq? && reqs[t].node in s.locks && s.locks[reqs[t].node] == s.pcs[t].lock)
    && (forall t :: 0 <= t < |reqs| && s.pcs[t].Critical? ==> s.pcs[t].lock in s.owner && s.owner[s.pcs[t].lock] == t)
  }

  lemma LockedGoto(reqs: seq<Request>, s: System, t: nat, pc: Pc)
    requires Locked(reqs, s) && t < |reqs|
    requires pc.Waiting? || pc.Critical? ==>
               reqs[t].PublishReq? && reqs[t].node in s.locks && s.locks[reqs[t].node] == pc.lock
    requires pc.Critical? ==> pc.lock in s.owner && s.owner[pc.lock] == t
    ensures Locked(reqs, Goto(s, t, pc))
  {
  }

  lemma LockedLeave(reqs: seq<Request>, s: System, t: nat, lock: nat, result: Result)
    requires Locked(reqs, s) && t < |reqs| && s.pcs[t].Critical? && s.pcs[t].lock == lock
    ensures Locked(reqs, Leave(s, t, lock, result))
  {
  }

  lemma LockedStart(reqs: seq<Request>, s: System, t: nat, e: Event)
    requires Locked(reqs, s) && t < |reqs| && reqs[t].PublishReq? && !s.pcs[t].Critical? && e.Turn?
    ensures Locked(reqs, StepPublish(s, t, reqs[t].vol, reqs[t].node, e))
  {
    if s.pcs[t].Start? && reqs[t].node !in s.locks {
      var s1 := s.(locks := s.locks[reqs[t].node := s.made], made := s.made + 1);
      assert Locked(reqs, s1);
      LockedGoto(reqs, s1, t, Waiting(s.made));
    }
  }

  lemma LockedCritical(reqs: seq<Request>, s: System, t: nat, vol: Id, node: Id, lock: nat, phase: Phase, e: Event)
    requires Locked(reqs, s) && t < |reqs| && s.pcs[t] == Critical(lock, phase) && e.Turn?
    ensures Locked(reqs, StepCritical(s, t, vol, node, lock, phase, e))
  {
    match phase {
      case Moving(drives, source, sourceDrives) =>
        var s1 := PutDrives(s, source, Removed(sourceDrives, vol), e.write);
        LockedGoto(reqs, s1, t, Critical(lock, Attaching(drives)));
      case Attaching(drives) =>
        var s1 := PutDrives(s, node, drives + [Attachment(drives, vol)], e.write);
        LockedLeave(reqs, s1, t, lock, if Effective(s, node, e.write).Done? then Attached(NextChannel(drives)) else Failure);
      case _ =>
    }
  }

  lemma LockedUnpublish(reqs: seq<Request>, s: System, t: nat, e: Event)
    requires Locked(reqs, s) && t < |reqs| && reqs[t].UnpublishReq? && e.Turn?
    ensures Locked(reqs, StepUnpublish(s, t, reqs[t].vol, reqs[t].node, e))
  {
    var out := StepUnpublish(s, t, reqs[t].vol, reqs[t].node, e);
    var s1 := if s.pcs[t].Detaching? then PutDrives(s, reqs[t].node, s.pcs[t].kept, e.write) else s;
    assert Locked(reqs, s1);
    assert out == Goto(s1, t, out.pcs[t]);
    LockedGoto(reqs, s1, t, out.pcs[t]);
  }

  lemma LockedRewrite(reqs: seq<Request>, s: System, t: nat, e: Event)
    requires Locked(reqs, s) && t < |reqs| && reqs[t].RewriteReq? && e.Turn?
    ensures Locked(reqs, StepRewrite(s, t, reqs[t].node, e))
  {
    var out := StepRewrite(s, t, reqs[t].node, e);
    var s1 := if s.pcs[t].Rewriting? then PutDrives(s, reqs[t].node, s.pcs[t].drives, e.write) else s;
    assert Locked(reqs, s1);
    assert out == Goto(s1, t, out.pcs[t]);
    LockedGoto(reqs, s1, t, out.pcs[t]);
  }

  lemma LockedStep(reqs: seq<Request>, s: System, e: Event)
    requires Locked(reqs, s)
    ensures Locked(reqs, Step(reqs, s, e))
  {
    if e.Turn? && e.t < |reqs| {
      var t := e.t;
      if s.pcs[t].Critical? {
        LockedCritical(reqs, s, t, reqs[t].vol, reqs[t].node, s.pcs[t].lock, s.pcs[t].phase, e);
      } else {
        match reqs[t] {
          case PublishReq(_, _) => LockedStart(reqs, s, t, e);
          case UnpublishReq(_, _) => LockedUnpublish(reqs, s, t, e);
          case RewriteReq(_) => LockedRewrite(reqs, s, t, e);
        }
      }
    }
  }

  lemma LockStays(reqs: seq<Request>, s: System, e: Event, n: Id)
    requires n in s.locks
    ensures var out := Step(reqs, s, e); n in out.locks && out.locks[n] == s.locks[n]
  {
    if e.Turn? && e.t < |reqs| && e.t < |s.pcs| {
      var pc := s.pcs[e.t];
      match reqs[e.t] {
        case UnpublishReq(vol, node) => UnpublishLocks(s, e.t, vol, node, e);
        case PublishReq(vol, node) => if pc.Critical? { CriticalLocks(s, e.t, vol, node, pc.lock, pc.phase, e); }
        case RewriteReq(_) =>
      }
    }
  }

  lemma CriticalLocks(s: System, t: nat, vol: Id, node: Id, lock: nat, phase: Phase, e: Event)
    requires t < |s.pcs| && e.Turn?
    ensures StepCritical(s, t, vol, node, lock, phase, e).locks == s.locks
  {
  }

  lemma UnpublishLocks(s: System, t: nat, vol: Id, node: Id, e: Event)
    requires t < |s.pcs| && e.Turn?
    ensures StepUnpublish(s, t, vol, node, e).locks == s.locks
  {
  }

  /** A server's lock, once made, is never replaced, and a run of any requests keeps the lock
      discipline. */
  lemma {:induction false} LocksLast(reqs: seq<Request>, s: System, es: seq<Event>, n: Id)
    requires Locked(reqs, s) && n in s.locks
    ensures var out := Run(reqs, s, es); Locked(reqs, out) && n in out.locks && out.locks[n] == s.locks[n]
    decreases |es|
  {
    if es != [] {
      LockedStep(reqs, s, es[0]);
      LockStays(reqs, s, es[0], n);
      LocksLast(reqs, Step(reqs, s, es[0]), es[1..], n);
    }
  }

  /** At most one publish per server is in flight. */
  lemma MutualExclusion(reqs: seq<Request>, s: System, t: nat, u: nat)
    requires Locked(reqs, s) && t < |reqs| && u < |reqs|
    requires s.pcs[t].Critical? && s.pcs[u].Critical? && reqs[t].node == reqs[u].node
    ensures t == u
  {
  }

  // ----- Nothing is lost unless a request can take it away -----

  /** A publish ends at once on a server that lists its volume. This one can get past that: its
      target does not list the volume at the start, or an unpublish frees it. */
  predicate Unblocked(reqs: seq<Request>, start: map<Id, seq<Entry>>, req: Request, vol: Id) {
    && req.PublishReq? && req.vol == vol && req.node in start
    && (!Holds(start[req.node], vol) || UnpublishReq(vol, req.node) in reqs)
  }

  /** One unblocked publish of a volume unblocks all others of it, by migrating it away from them. */
  predicate Mobile(reqs: seq<Request>, start: map<Id, seq<Entry>>, vol: Id) {
    exists x :: 0 <= x < |reqs| && Unblocked(reqs, start, reqs[x], vol)
  }

  /** The request can rewrite the list of `n` without its lock: an unpublish from `n`, a switch of `n`
      to manual mode, or a publish to another server, which migrates its volume away from `n` if the
      volume's mounted_on says that it is there. */
  predicate Takes(reqs: seq<Request>, start: map<Id, seq<Entry>>, req: Request, n: Id) {
    match req
    case UnpublishReq(_, node) => node == n
    case PublishReq(vol, node) => node != n && node in start && Mobile(reqs, start, vol)
    case RewriteReq(node) => node == n
  }

  /** Request `u` can undo publish `t` to `n`: it takes the same volume away, or it writes back a list
      that `t` has yet to join. An unpublish writes only if its volume is there; a migration goes by
      mounted_on, which can be out of date. */
  predicate Threat(reqs: seq<Request>, start: map<Id, seq<Entry>>, n: Id, u: nat, t: nat)
    requires u < |reqs| && t < |reqs| && n in start
  {
    && Takes(reqs, start, reqs[u], n) && reqs[t].PublishReq? && reqs[t].node == n
    && match reqs[u]
       case UnpublishReq(vol, _) => vol == reqs[t].vol || (Holds(start[n], vol) && !Holds(start[n], reqs[t].vol))
       case PublishReq(vol, _) => vol == reqs[t].vol || !Holds(start[n], reqs[t].vol)
       case RewriteReq(_) => !Holds(start[n], reqs[t].vol)
  }

  ghost predicate Threatened(reqs: seq<Request>, start: map<Id, seq<Entry>>, n: Id)
    requires n in start
  {
    exists u, t :: 0 <= u < |reqs| && 0 <= t < |reqs| && Threat(reqs, start, n, u, t)
  }

  predicate HasEntry(drives: seq<Entry>, vol: Id, channel: string) {
    exists i :: 0 <= i < |drives| && drives[i].volume == Some(vol) && drives[i].channel == channel
  }

  // ----- A volume that is not mobile stays where its publishes are bound -----

  ghost predicate Anchors(reqs: seq<Request>, start: map<Id, seq<Entry>>, m: Id, drives: seq<Entry>) {
    forall x :: 0 <= x < |reqs| && reqs[x].PublishReq? && reqs[x].node == m && m in start && !Mobile(reqs, start, reqs[x].vol) ==>
      Holds(drives, reqs[x].vol)
  }

  /** A publish that has passed the first GET. */
  ghost predicate Underway(reqs: seq<Request>, start: map<Id, seq<Entry>>, req: Request, drives: seq<Entry>) {
    req.PublishReq? && req.node in start && Mobile(reqs, start, req.vol) && Anchors(reqs, start, req.node, drives)
  }

  ghost predicate ThreadAnchored(reqs: seq<Request>, start: map<Id, seq<Entry>>, pc: Pc, req: Request) {
    match pc
    case Waiting(_) => req.PublishReq?
    case Critical(_, Entered) => req.PublishReq?
    case Critical(_, Fetched(drives)) => Underway(reqs, start, req, drives)
    case Critical(_, Migrating(drives, _)) => Underway(reqs, start, req, drives)
    case Critical(_, Moving(drives, source, sourceDrives)) =>
      Underway(reqs, start, req, drives) && Anchors(reqs, start, source, sourceDrives)
    case Critical(_, Attaching(drives)) => Underway(reqs, start, req, drives)
    case Detaching(kept) => req.UnpublishReq? && Anchors(reqs, start, req.node, kept)
    case Rechecking => req.UnpublishReq?
    case Rewriting(drives) => req.RewriteReq? && Anchors(reqs, start, req.node, drives)
    case _ => true
  }

  ghost predicate Anchored(reqs: seq<Request>, start: map<Id, seq<Entry>>, s: System) {
    && |s.pcs| == |reqs| && s.servers.Keys <= start.Keys
    && (forall m :: m in s.servers ==> Anchors(reqs, start, m, s.servers[m]))
    && (forall t :: 0 <= t < |reqs| ==> ThreadAnchored(reqs, start, s.pcs[t], reqs[t]))
  }

  lemma AnchorsRemoved(reqs: seq<Request>, start: map<Id, seq<Entry>>, m: Id, drives: seq<Entry>, vol: Id)
    requires Anchors(reqs, start, m, drives) && (UnpublishReq(vol, m) in reqs || Mobile(reqs, start, vol))
    ensures Anchors(reqs, start, m, Removed(drives, vol))
  {
    RemovedFacts(drives, vol);
    forall x | 0 <= x < |reqs| && reqs[x].PublishReq? && reqs[x].node == m && m in start && !Mobile(reqs, start, reqs[x].vol)
      ensures Holds(Removed(drives, vol), reqs[x].vol)
    {
      assert !Unblocked(reqs, start, reqs[x], reqs[x].vol);
    }
  }

  lemma AnchorsAppend(reqs: seq<Request>, start: map<Id, seq<Entry>>, m: Id, drives: seq<Entry>, e: Entry)
    requires Anchors(reqs, start, m, drives)
    ensures Anchors(reqs, start, m, drives + [e])
  {
    forall vol | Holds(drives, vol) ensures Holds(drives + [e], vol) {
      var i :| 0 <= i < |drives| && drives[i].volume == Some(vol);
      assert (drives + [e])[i] == drives[i];
    }
  }

  lemma AnchoredPut(reqs: seq<Request>, start: map<Id, seq<Entry>>, s: System, m: Id, drives: seq<Entry>, write: Write)
    requires Anchored(reqs, start, s) && Anchors(reqs, start, m, drives)
    ensures Anchored(reqs, start, PutDrives(s, m, drives, write))
  {
  }

  lemma AnchoredGoto(reqs: seq<Request>, start: map<Id, seq<Entry>>, s: System, out: System, t: nat)
    requires Anchored(reqs, start, s) && t < |reqs| && out.servers == s.servers && |out.pcs| == |s.pcs|
    requires forall u :: 0 <= u < |reqs| && u != t ==> out.pcs[u] == s.pcs[u]
    requires ThreadAnchored(reqs, start, out.pcs[t], reqs[t])
    ensures Anchored(reqs, start, out)
  {
  }

  lemma AnchoredMoving(reqs: seq<Request>, start: map<Id, seq<Entry>>, s: System, t: nat, e: Event)
    requires Anchored(reqs, start, s) && t < |reqs| && reqs[t].PublishReq? && e.Turn?
    requires s.pcs[t].Critical? && s.pcs[t].phase.Moving?
    ensures Anchored(reqs, start, StepCritical(s, t, reqs[t].vol, reqs[t].node, s.pcs[t].lock, s.pcs[t].phase, e))
  {
    var vol, phase := reqs[t].vol, s.pcs[t].phase;
    assert ThreadAnchored(reqs, start, s.pcs[t], reqs[t]);
    var kept := Removed(phase.sourceDrives, vol);
    AnchorsRemoved(reqs, start, phase.source, phase.sourceDrives, vol);
    AnchoredPut(reqs, start, s, phase.source, kept, e.write);
    AnchoredGoto(reqs, start, PutDrives(s, phase.source, kept, e.write),
                 StepCritical(s, t, vol, reqs[t].node, s.pcs[t].lock, phase, e), t);
  }

  lemma AnchoredAttaching(reqs: seq<Request>, start: map<Id, seq<Entry>>, s: System, t: nat, e: Event)
    requires Anchored(reqs, start, s) && t < |reqs| && reqs[t].PublishReq? && e.Turn?
    requires s.pcs[t].Critical? && s.pcs[t].phase.Attaching?
    ensures Anchored(reqs, start, StepCritical(s, t, reqs[t].vol, reqs[t].node, s.pcs[t].lock, s.pcs[t].phase, e))
  {
    var vol, node, drives := reqs[t].vol, reqs[t].node, s.pcs[t].phase.drives;
    assert ThreadAnchored(reqs, start, s.pcs[t], reqs[t]);
    var now := drives + [Attachment(drives, vol)];
    AnchorsAppend(reqs, start, node, drives, Attachment(drives, vol));
    AnchoredPut(reqs, start, s, node, now, e.write);
    AnchoredGoto(reqs, start, PutDrives(s, node, now, e.write), StepCritical(s, t, vol, node, s.pcs[t].lock, s.pcs[t].phase, e), t);
  }

  lemma AnchoredCritical(reqs: seq<Request>, start: map<Id, seq<Entry>>, s: System, t: nat, e: Event)
    requires Anchored(reqs, start, s) && t < |reqs| && reqs[t].PublishReq? && s.pcs[t].Critical? && e.Turn?
    ensures Anchored(reqs, start, StepCritical(s, t, reqs[t].vol, reqs[t].node, s.pcs[t].lock, s.pcs[t].phase, e))
  {
    var phase := s.pcs[t].phase;
    if phase.Moving? {
      AnchoredMoving(reqs, start, s, t, e);
    } else if phase.Attaching? {
      AnchoredAttaching(reqs, start, s, t, e);
    } else {
      assert ThreadAnchored(reqs, start, s.pcs[t], reqs[t]);
      AnchoredGoto(reqs, start, s, StepCritical(s, t, reqs[t].vol, reqs[t].node, s.pcs[t].lock, phase, e), t);
    }
  }

  lemma AnchoredDetaching(reqs: seq<Request>, start: map<Id, seq<Entry>>, s: System, t: nat, e: Event)
    requires Anchored(reqs, start, s) && t < |reqs| && reqs[t].UnpublishReq? && s.pcs[t].Detaching? && e.Turn?
    ensures Anchored(reqs, start, StepUnpublish(s, t, reqs[t].vol, reqs[t].node, e))
  {
    var vol, node, kept := reqs[t].vol, reqs[t].node, s.pcs[t].kept;
    assert ThreadAnchored(reqs, start, s.pcs[t], reqs[t]);
    AnchoredPut(reqs, start, s, node, kept, e.write);
    AnchoredGoto(reqs, start, PutDrives(s, node, kept, e.write), StepUnpublish(s, t, vol, node, e), t);
  }

  lemma AnchoredUnpublish(reqs: seq<Request>, start: map<Id, seq<Entry>>, s: System, t: nat, e: Event)
    requires Anchored(reqs, start, s) && t < |reqs| && reqs[t].UnpublishReq? && e.Turn?
    ensures Anchored(reqs, start, StepUnpublish(s, t, reqs[t].vol, reqs[t].node, e))
  {
    var vol, node := reqs[t].vol, reqs[t].node;
    if s.pcs[t].Detaching? {
      AnchoredDetaching(reqs, start, s, t, e);
    } else {
      assert ThreadAnchored(reqs, start, s.pcs[t], reqs[t]);
      assert reqs[t] == UnpublishReq(vol, node);
      if node in s.servers { AnchorsRemoved(reqs, start, node, s.servers[node], vol); }
      AnchoredGoto(reqs, start, s, StepUnpublish(s, t, vol, node, e), t);
    }
  }

  lemma AnchoredRewrite(reqs: seq<Request>, start: map<Id, seq<Entry>>, s: System, t: nat, e: Event)
    requires Anchored(reqs, start, s) && t < |reqs| && reqs[t].RewriteReq? && e.Turn?
    ensures Anchored(reqs, start, StepRewrite(s, t, reqs[t].node, e))
  {
    var node := reqs[t].node;
    var out := StepRewrite(s, t, node, e);
    assert ThreadAnchored(reqs, start, s.pcs[t], reqs[t]);
    var s1 := s;
    if s.pcs[t].Rewriting? {
      AnchoredPut(reqs, start, s, node, s.pcs[t].drives, e.write);
      s1 := PutDrives(s, node, s.pcs[t].drives, e.write);
    }
    AnchoredGoto(reqs, start, s1, out, t);
  }

  lemma AnchoredStep(reqs: seq<Request>, start: map<Id, seq<Entry>>, s: System, e: Event)
    requires Anchored(reqs, start, s)
    ensures Anchored(reqs, start, Step(reqs, s, e))
  {
    if e.Turn? && e.t < |reqs| {
      var t := e.t;
      assert ThreadAnchored(reqs, start, s.pcs[t], reqs[t]);
      match reqs[t] {
        case UnpublishReq(_, _) => AnchoredUnpublish(reqs, start, s, t, e);
        case RewriteReq(_) => AnchoredRewrite(reqs, start, s, t, e);
        case PublishReq(_, _) =>
          if s.pcs[t].Critical? {
            AnchoredCritical(reqs, start, s, t, e);
          } else {
            AnchoredGoto(reqs, start, s, Step(reqs, s, e), t);
          }
      }
    }
  }

  lemma AnchoredAtStart(reqs: seq<Request>, start: map<Id, seq<Entry>>)
    ensures Anchored(reqs, start, Init(start, |reqs|))
  {
    forall m, x | m in start && 0 <= x < |reqs| && reqs[x].PublishReq? && reqs[x].node == m && !Mobile(reqs, start, reqs[x].vol)
      ensures Holds(start[m], reqs[x].vol)
    {
      assert !Unblocked(reqs, start, reqs[x], reqs[x].vol);
    }
  }

  /** So a publish that gets past its first GET is one of a mobile volume. */
  lemma PastIsMobile(reqs: seq<Request>, start: map<Id, seq<Entry>>, s: System, t: nat)
    requires Anchored(reqs, start, s) && t < |reqs| && reqs[t].PublishReq?
    requires reqs[t].node in s.servers && !Holds(s.servers[reqs[t].node], reqs[t].vol)
    ensures reqs[t].node in start && Mobile(reqs, start, reqs[t].vol)
  {
    assert Anchors(reqs, start, reqs[t].node, s.servers[reqs[t].node]);
  }

  // ----- Case one: only unpublishes touch `n`, of volumes that are neither there nor bound for it -----

  ghost predicate Private(reqs: seq<Request>, start: map<Id, seq<Entry>>, n: Id, drives: seq<Entry>) {
    forall u :: 0 <= u < |reqs| && Takes(reqs, start, reqs[u], n) ==>
      reqs[u].UnpublishReq? && !Holds(drives, reqs[u].vol) && PublishReq(reqs[u].vol, n) !in reqs
  }

  /** A thread in flight is one on `n` with the current list in hand, and a publish that reported
      success is in the list at its channel. */
  ghost predicate ThreadKept(reqs: seq<Request>, s: System, n: Id, t: nat)
    requires t < |reqs| == |s.pcs| && n in s.servers
  {
    match s.pcs[t]
    case Critical(_, Entered) => true
    case Critical(_, Fetched(drives)) => OnCourse(reqs[t], s.servers[n], n, drives)
    case Critical(_, Migrating(drives, source)) => source != n && OnCourse(reqs[t], s.servers[n], n, drives)
    case Critical(_, Moving(drives, source, _)) => source != n && OnCourse(reqs[t], s.servers[n], n, drives)
    case Critical(_, Attaching(drives)) => OnCourse(reqs[t], s.servers[n], n, drives)
    case Detaching(_) => reqs[t].node != n
    case Rewriting(_) => reqs[t].node != n
    case Ended(Attached(channel)) => reqs[t].PublishReq? && reqs[t].node == n ==> HasEntry(s.servers[n], reqs[t].vol, channel)
    case _ => true
  }

  predicate OnCourse(req: Request, current: seq<Entry>, n: Id, drives: seq<Entry>) {
    req.PublishReq? && req.node == n && drives == current && !Holds(drives, req.vol)
  }

  ghost predicate Kept(reqs: seq<Request>, s: System, start: map<Id, seq<Entry>>, n: Id) {
    && Locked(reqs, s)
    && n in s.servers && OnceEach(s.servers[n])
    && Private(reqs, start, n, s.servers[n])
    && (forall t :: 0 <= t < |reqs| ==> ThreadKept(reqs, s, n, t))
  }

  lemma HasEntryAppend(drives: seq<Entry>, e: Entry, vol: Id, channel: string)
    requires HasEntry(drives, vol, channel)
    ensures HasEntry(drives + [e], vol, channel)
  {
    var i :| 0 <= i < |drives| && drives[i].volume == Some(vol) && drives[i].channel == channel;
    assert (drives + [e])[i] == drives[i];
  }

  /** The one step that changes the list of `n`. */
  lemma KeptAttach(reqs: seq<Request>, s: System, start: map<Id, seq<Entry>>, t: nat, lock: nat, drives: seq<Entry>, e: Event, n: Id)
    requires Kept(reqs, s, start, n) && t < |reqs| && s.pcs[t] == Critical(lock, Attaching(drives)) && e.Turn?
    requires reqs[t].PublishReq? && reqs[t].node == n
    ensures Kept(reqs, StepCritical(s, t, reqs[t].vol, n, lock, Attaching(drives), e), start, n)
  {
    var vol := reqs[t].vol;
    var out := StepCritical(s, t, vol, n, lock, Attaching(drives), e);
    LockedCritical(reqs, s, t, vol, n, lock, Attaching(drives), e);
    assert ThreadKept(reqs, s, n, t);
    AppendFacts(drives, vol);
    var now := drives + [Attachment(drives, vol)];
    assert now[|drives|] == Attachment(drives, vol);
    assert reqs[t] == PublishReq(vol, n);
    forall u | 0 <= u < |reqs| ensures ThreadKept(reqs, out, n, u) {
      assert ThreadKept(reqs, s, n, u);
      if u != t {
        if s.pcs[u].Critical? && reqs[u].node == n { MutualExclusion(reqs, s, t, u); }
        if s.pcs[u].Ended? && s.pcs[u].result.Attached? && reqs[u].PublishReq? && reqs[u].node == n {
          HasEntryAppend(drives, Attachment(drives, vol), reqs[u].vol, s.pcs[u].result.channel);
        }
      }
    }
  }

  /** Every other step leaves the list of `n` alone. */
  lemma KeptElsewhere(reqs: seq<Request>, s: System, start: map<Id, seq<Entry>>, out: System, t: nat, n: Id)
    requires Kept(reqs, s, start, n) && Locked(reqs, out) && t < |reqs|
    requires n in out.servers && out.servers[n] == s.servers[n]
    requires forall u :: 0 <= u < |reqs| && u != t ==> out.pcs[u] == s.pcs[u]
    requires ThreadKept(reqs, out, n, t)
    ensures Kept(reqs, out, start, n)
  {
    forall u | 0 <= u < |reqs| ensures ThreadKept(reqs, out, n, u) {
      assert ThreadKept(reqs, s, n, u);
    }
  }

  lemma KeptCritical(reqs: seq<Request>, s: System, start: map<Id, seq<Entry>>, t: nat, lock: nat, phase: Phase, e: Event, n: Id)
    requires Kept(reqs, s, start, n) && Anchored(reqs, start, s) && e.Turn? && t < |reqs| && reqs[t].PublishReq?
    requires s.pcs[t] == Critical(lock, phase)
    ensures Kept(reqs, StepCritical(s, t, reqs[t].vol, reqs[t].node, lock, phase, e), start, n)
  {
    var vol, node := reqs[t].vol, reqs[t].node;
    assert ThreadKept(reqs, s, n, t);
    if phase.Attaching? {
      KeptAttach(reqs, s, start, t, lock, phase.drives, e, n);
    } else {
      var out := StepCritical(s, t, vol, node, lock, phase, e);
      LockedCritical(reqs, s, t, vol, node, lock, phase, e);
      if phase.Entered? && node in s.servers {
        if !Holds(s.servers[node], vol) { PastIsMobile(reqs, start, s, t); } else { ChannelOfHolds(s.servers[node], vol); }
      }
      KeptElsewhere(reqs, s, start, out, t, n);
    }
  }

  lemma KeptVanish(reqs: seq<Request>, s: System, start: map<Id, seq<Entry>>, node: Id, n: Id)
    requires Kept(reqs, s, start, n) && node != n
    ensures Kept(reqs, s.(servers := s.servers - {node}), start, n)
  {
    var out := s.(servers := s.servers - {node});
    forall u | 0 <= u < |reqs| ensures ThreadKept(reqs, out, n, u) { assert ThreadKept(reqs, s, n, u); }
  }

  lemma KeptUnpublish(reqs: seq<Request>, s: System, start: map<Id, seq<Entry>>, t: nat, e: Event, n: Id)
    requires Kept(reqs, s, start, n) && t < |reqs| && reqs[t].UnpublishReq? && e.Turn?
    ensures Kept(reqs, StepUnpublish(s, t, reqs[t].vol, reqs[t].node, e), start, n)
  {
    assert ThreadKept(reqs, s, n, t);
    LockedUnpublish(reqs, s, t, e);
    KeptElsewhere(reqs, s, start, StepUnpublish(s, t, reqs[t].vol, reqs[t].node, e), t, n);
  }

  lemma KeptRewrite(reqs: seq<Request>, s: System, start: map<Id, seq<Entry>>, t: nat, e: Event, n: Id)
    requires Kept(reqs, s, start, n) && t < |reqs| && reqs[t].RewriteReq? && e.Turn?
    ensures Kept(reqs, StepRewrite(s, t, reqs[t].node, e), start, n)
  {
    assert ThreadKept(reqs, s, n, t);
    assert reqs[t].node != n;
    LockedRewrite(reqs, s, t, e);
    KeptElsewhere(reqs, s, start, StepRewrite(s, t, reqs[t].node, e), t, n);
  }

  lemma KeptOutside(reqs: seq<Request>, s: System, start: map<Id, seq<Entry>>, t: nat, e: Event, n: Id)
    requires Kept(reqs, s, start, n) && t < |reqs| && reqs[t].PublishReq? && !s.pcs[t].Critical? && e.Turn?
    ensures Kept(reqs, StepPublish(s, t, reqs[t].vol, reqs[t].node, e), start, n)
  {
    assert ThreadKept(reqs, s, n, t);
    LockedStart(reqs, s, t, e);
    KeptElsewhere(reqs, s, start, StepPublish(s, t, reqs[t].vol, reqs[t].node, e), t, n);
  }

  lemma KeptStep(reqs: seq<Request>, s: System, start: map<Id, seq<Entry>>, e: Event, n: Id)
    requires Kept(reqs, s, start, n) && Anchored(reqs, start, s) && e != Vanish(n)
    ensures Kept(reqs, Step(reqs, s, e), start, n)
  {
    match e {
      case Vanish(node) => KeptVanish(reqs, s, start, node, n);
      case Turn(t, _, _, _) =>
        if t < |reqs| {
          match reqs[t] {
            case UnpublishReq(_, _) => KeptUnpublish(reqs, s, start, t, e, n);
            case RewriteReq(_) => KeptRewrite(reqs, s, start, t, e, n);
            case PublishReq(_, _) =>
              if s.pcs[t].Critical? {
                KeptCritical(reqs, s, start, t, s.pcs[t].lock, s.pcs[t].phase, e, n);
              } else {
                KeptOutside(reqs, s, start, t, e, n);
              }
          }
        }
    }
  }

  lemma {:induction false} KeptRun(reqs: seq<Request>, s: System, start: map<Id, seq<Entry>>, es: seq<Event>, n: Id)
    requires Kept(reqs, s, start, n) && Anchored(reqs, start, s) && Vanish(n) !in es
    ensures Kept(reqs, Run(reqs, s, es), start, n)
    decreases |es|
  {
    if es != [] {
      KeptStep(reqs, s, start, es[0], n);
      AnchoredStep(reqs, start, s, es[0]);
      KeptRun(reqs, Step(reqs, s, es[0]), start, es[1..], n);
    }
  }

  // ----- Case two: every volume bound for `n` is there from the start -----

  /** `drives` holds nothing but entries of `all`, and every one whose volume is bound for `n`. */
  ghost predicate Keeps(reqs: seq<Request>, n: Id, all: seq<Entry>, drives: seq<Entry>) {
    && (forall e :: e in drives ==> e in all)
    && (forall e :: e in all && e.volume.Some? && PublishReq(e.volume.value, n) in reqs ==> e in drives)
  }

  /** Whatever a thread may write to `n` keeps the volumes bound for `n`. */
  ghost predicate ThreadSettled(reqs: seq<Request>, s: System, start: map<Id, seq<Entry>>, n: Id, all: seq<Entry>, t: nat)
    requires t < |reqs| == |s.pcs|
  {
    match s.pcs[t]
    case Critical(_, Entered) => true
    case Critical(_, Moving(_, source, drives)) =>
      Takes(reqs, start, reqs[t], n) && reqs[t].PublishReq? && (source == n ==> Keeps(reqs, n, all, drives))
    case Critical(_, _) => Takes(reqs, start, reqs[t], n) && reqs[t].PublishReq?
    case Detaching(kept) => reqs[t].node == n ==> Keeps(reqs, n, all, kept)
    case Rewriting(drives) => reqs[t].node == n ==> Keeps(reqs, n, all, drives)
    case Ended(Attached(channel)) => reqs[t].PublishReq? && reqs[t].node == n ==> HasEntry(all, reqs[t].vol, channel)
    case _ => true
  }

  ghost predicate Settled(reqs: seq<Request>, s: System, start: map<Id, seq<Entry>>, n: Id, all: seq<Entry>) {
    && |s.pcs| == |reqs|
    && n in s.servers && Keeps(reqs, n, all, s.servers[n])
    && (forall t :: 0 <= t < |reqs| ==> ThreadSettled(reqs, s, start, n, all, t))
  }

  /** Every volume bound for `n` is in `all`, and no request takes one away. */
  ghost predicate Undisturbed(reqs: seq<Request>, start: map<Id, seq<Entry>>, n: Id, all: seq<Entry>) {
    && (forall t :: 0 <= t < |reqs| && reqs[t].PublishReq? && reqs[t].node == n ==> Holds(all, reqs[t].vol))
    && (forall u :: 0 <= u < |reqs| && Takes(reqs, start, reqs[u], n) && !reqs[u].RewriteReq? ==>
          PublishReq(reqs[u].vol, n) !in reqs)
  }

  lemma KeepsRemoved(reqs: seq<Request>, n: Id, all: seq<Entry>, drives: seq<Entry>, vol: Id)
    requires Keeps(reqs, n, all, drives) && PublishReq(vol, n) !in reqs
    ensures Keeps(reqs, n, all, Removed(drives, vol))
  {
  }

  lemma KeepsHolds(reqs: seq<Request>, n: Id, all: seq<Entry>, drives: seq<Entry>, vol: Id)
    requires Keeps(reqs, n, all, drives) && Holds(all, vol) && PublishReq(vol, n) in reqs
    ensures Holds(drives, vol) && HasEntry(all, vol, ChannelOf(drives, vol))
  {
    var i :| 0 <= i < |all| && all[i].volume == Some(vol);
    assert all[i] in drives;
    ChannelOfHolds(drives, vol);
    var j :| 0 <= j < |drives| && drives[j].volume == Some(vol) && drives[j].channel == ChannelOf(drives, vol);
    assert drives[j] in all;
  }

  lemma SettledElsewhere(reqs: seq<Request>, s: System, start: map<Id, seq<Entry>>, n: Id, all: seq<Entry>, out: System, t: nat)
    requires Settled(reqs, s, start, n, all) && t < |reqs| == |out.pcs|
    requires n in out.servers && Keeps(reqs, n, all, out.servers[n])
    requires forall u :: 0 <= u < |reqs| && u != t ==> out.pcs[u] == s.pcs[u]
    requires ThreadSettled(reqs, out, start, n, all, t)
    ensures Settled(reqs, out, start, n, all)
  {
    forall u | 0 <= u < |reqs| ensures ThreadSettled(reqs, out, start, n, all, u) {
      assert ThreadSettled(reqs, s, start, n, all, u);
    }
  }

  lemma SettledCritical(reqs: seq<Request>, s: System, start: map<Id, seq<Entry>>, n: Id, all: seq<Entry>, t: nat, e: Event)
    requires Settled(reqs, s, start, n, all) && Undisturbed(reqs, start, n, all) && Anchored(reqs, start, s)
    requires e.Turn? && t < |reqs| && reqs[t].PublishReq? && s.pcs[t].Critical?
    ensures Settled(reqs, StepCritical(s, t, reqs[t].vol, reqs[t].node, s.pcs[t].lock, s.pcs[t].phase, e), start, n, all)
  {
    var vol, node, phase := reqs[t].vol, reqs[t].node, s.pcs[t].phase;
    assert ThreadSettled(reqs, s, start, n, all, t);
    if phase.Entered? && node in s.servers {
      if node == n {
        assert reqs[t] == PublishReq(vol, n);
        KeepsHolds(reqs, n, all, s.servers[n], vol);
      } else if !Holds(s.servers[node], vol) {
        PastIsMobile(reqs, start, s, t);
      }
    }
    if phase.Moving? {
      SettledMove(reqs, s, start, n, all, t, e);
    } else {
      SettledElsewhere(reqs, s, start, n, all, StepCritical(s, t, vol, node, s.pcs[t].lock, phase, e), t);
    }
  }

  lemma SettledMove(reqs: seq<Request>, s: System, start: map<Id, seq<Entry>>, n: Id, all: seq<Entry>, t: nat, e: Event)
    requires Settled(reqs, s, start, n, all) && Undisturbed(reqs, start, n, all)
    requires e.Turn? && t < |reqs| && reqs[t].PublishReq? && s.pcs[t].Critical? && s.pcs[t].phase.Moving?
    ensures Settled(reqs, StepCritical(s, t, reqs[t].vol, reqs[t].node, s.pcs[t].lock, s.pcs[t].phase, e), start, n, all)
  {
    var phase := s.pcs[t].phase;
    assert ThreadSettled(reqs, s, start, n, all, t);
    if phase.source == n { KeepsRemoved(reqs, n, all, phase.sourceDrives, reqs[t].vol); }
    SettledElsewhere(reqs, s, start, n, all, StepCritical(s, t, reqs[t].vol, reqs[t].node, s.pcs[t].lock, phase, e), t);
  }

  lemma SettledDetaching(reqs: seq<Request>, s: System, start: map<Id, seq<Entry>>, n: Id, all: seq<Entry>, t: nat, e: Event)
    requires Settled(reqs, s, start, n, all) && e.Turn? && t < |reqs| && reqs[t].UnpublishReq? && s.pcs[t].Detaching?
    ensures Settled(reqs, StepUnpublish(s, t, reqs[t].vol, reqs[t].node, e), start, n, all)
  {
    assert ThreadSettled(reqs, s, start, n, all, t);
    SettledElsewhere(reqs, s, start, n, all, StepUnpublish(s, t, reqs[t].vol, reqs[t].node, e), t);
  }

  lemma SettledUnpublish(reqs: seq<Request>, s: System, start: map<Id, seq<Entry>>, n: Id, all: seq<Entry>, t: nat, e: Event)
    requires Settled(reqs, s, start, n, all) && Undisturbed(reqs, start, n, all)
    requires e.Turn? && t < |reqs| && reqs[t].UnpublishReq?
    ensures Settled(reqs, StepUnpublish(s, t, reqs[t].vol, reqs[t].node, e), start, n, all)
  {
    var vol, node := reqs[t].vol, reqs[t].node;
    if s.pcs[t].Detaching? {
      SettledDetaching(reqs, s, start, n, all, t, e);
    } else {
      var out := StepUnpublish(s, t, vol, node, e);
      assert ThreadSettled(reqs, s, start, n, all, t);
      if node == n { KeepsRemoved(reqs, n, all, s.servers[n], vol); }
      assert out == Goto(s, t, out.pcs[t]);
      SettledElsewhere(reqs, s, start, n, all, out, t);
    }
  }

  lemma SettledOther(reqs: seq<Request>, s: System, start: map<Id, seq<Entry>>, n: Id, all: seq<Entry>, t: nat, e: Event)
    requires Settled(reqs, s, start, n, all) && e.Turn? && e.t == t < |reqs|
    requires reqs[t].RewriteReq? || (reqs[t].PublishReq? && !s.pcs[t].Critical?)
    ensures Settled(reqs, Step(reqs, s, e), start, n, all)
  {
    assert ThreadSettled(reqs, s, start, n, all, t);
    SettledElsewhere(reqs, s, start, n, all, Step(reqs, s, e), t);
  }

  lemma SettledVanish(reqs: seq<Request>, s: System, start: map<Id, seq<Entry>>, n: Id, all: seq<Entry>, node: Id)
    requires Settled(reqs, s, start, n, all) && node != n
    ensures Settled(reqs, s.(servers := s.servers - {node}), start, n, all)
  {
    var out := s.(servers := s.servers - {node});
    forall u | 0 <= u < |reqs| ensures ThreadSettled(reqs, out, start, n, all, u) { assert ThreadSettled(reqs, s, start, n, all, u); }
  }

  lemma SettledStep(reqs: seq<Request>, s: System, start: map<Id, seq<Entry>>, n: Id, all: seq<Entry>, e: Event)
    requires Settled(reqs, s, start, n, all) && Undisturbed(reqs, start, n, all) && Anchored(reqs, start, s) && e != Vanish(n)
    ensures Settled(reqs, Step(reqs, s, e), start, n, all)
  {
    match e {
      case Vanish(node) => SettledVanish(reqs, s, start, n, all, node);
      case Turn(t, _, _, _) =>
        if t < |reqs| {
          if reqs[t].UnpublishReq? {
            SettledUnpublish(reqs, s, start, n, all, t, e);
          } else if reqs[t].PublishReq? && s.pcs[t].Critical? {
            SettledCritical(reqs, s, start, n, all, t, e);
          } else {
            SettledOther(reqs, s, start, n, all, t, e);
          }
        }
    }
  }

  lemma {:induction false} SettledRun(reqs: seq<Request>, s: System, start: map<Id, seq<Entry>>, n: Id, all: seq<Entry>, es: seq<Event>)
    requires Settled(reqs, s, start, n, all) && Undisturbed(reqs, start, n, all) && Anchored(reqs, start, s) && Vanish(n) !in es
    ensures Settled(reqs, Run(reqs, s, es), start, n, all)
    decreases |es|
  {
    if es != [] {
      SettledStep(reqs, s, start, n, all, es[0]);
      AnchoredStep(reqs, start, s, es[0]);
      SettledRun(reqs, Step(reqs, s, es[0]), start, n, all, es[1..]);
    }
  }

  // ----- Both cases -----

  /** Thread `t` reported a publish to `n` that the list of `n` does not show at its channel. */
  predicate LosesAt(reqs: seq<Request>, s: System, n: Id, t: nat)
    requires t < |reqs|
  {
    t < |s.pcs| && reqs[t].PublishReq? && reqs[t].node == n && s.pcs[t].Ended? && s.pcs[t].result.Attached?
    && (n in s.servers ==> !HasEntry(s.servers[n], reqs[t].vol, s.pcs[t].result.channel))
  }

  ghost predicate Loses(reqs: seq<Request>, s: System, n: Id) {
    exists t :: 0 <= t < |reqs| && LosesAt(reqs, s, n, t)
  }

  /** Without a threat, one of the two cases applies. */
  lemma NoThreat(reqs: seq<Request>, start: map<Id, seq<Entry>>, n: Id)
    requires n in start && !Threatened(reqs, start, n)
    ensures Private(reqs, start, n, start[n]) || Undisturbed(reqs, start, n, start[n])
  {
    var all := start[n];
    forall u, t | 0 <= u < |reqs| && 0 <= t < |reqs| && Takes(reqs, start, reqs[u], n) && reqs[t].PublishReq? && reqs[t].node == n
      ensures !reqs[u].RewriteReq? ==> reqs[u].vol != reqs[t].vol
      ensures !Holds(all, reqs[t].vol) ==> reqs[u].UnpublishReq? && !Holds(all, reqs[u].vol)
    {
      assert !Threat(reqs, start, n, u, t);
    }
    if !Undisturbed(reqs, start, n, all) {
      var t :| 0 <= t < |reqs| && reqs[t].PublishReq? && reqs[t].node == n && !Holds(all, reqs[t].vol);
    }
  }

  /** The list of `n` after a run, and what every thread reported. */
  lemma KeptAfter(reqs: seq<Request>, start: map<Id, seq<Entry>>, es: seq<Event>, n: Id)
    requires n in start && OnceEach(start[n]) && Private(reqs, start, n, start[n]) && Vanish(n) !in es
    ensures var out := Run(reqs, Init(start, |reqs|), es);
            |out.pcs| == |reqs| && n in out.servers && OnceEach(out.servers[n]) && !Loses(reqs, out, n)
  {
    var out := Run(reqs, Init(start, |reqs|), es);
    AnchoredAtStart(reqs, start);
    KeptRun(reqs, Init(start, |reqs|), start, es, n);
    forall t | 0 <= t < |reqs| ensures !LosesAt(reqs, out, n, t) {
      assert ThreadKept(reqs, out, n, t);
    }
  }

  lemma SettledAfter(reqs: seq<Request>, start: map<Id, seq<Entry>>, es: seq<Event>, n: Id)
    requires n in start && Undisturbed(reqs, start, n, start[n]) && Vanish(n) !in es
    ensures var out := Run(reqs, Init(start, |reqs|), es);
            && |out.pcs| == |reqs| && n in out.servers && !Loses(reqs, out, n)
            && (forall e :: e in out.servers[n] ==> e in start[n])
  {
    var out := Run(reqs, Init(start, |reqs|), es);
    AnchoredAtStart(reqs, start);
    SettledRun(reqs, Init(start, |reqs|), start, n, start[n], es);
    forall t | 0 <= t < |reqs| ensures !LosesAt(reqs, out, n, t) {
      assert ThreadSettled(reqs, out, start, n, start[n], t);
      if reqs[t].PublishReq? && reqs[t].node == n && out.pcs[t].Ended? && out.pcs[t].result.Attached? {
        SettledEntry(reqs, n, start[n], out.servers[n], reqs[t].vol, out.pcs[t].result.channel);
      }
    }
  }

  lemma SettledEntry(reqs: seq<Request>, n: Id, all: seq<Entry>, drives: seq<Entry>, vol: Id, channel: string)
    requires Keeps(reqs, n, all, drives) && HasEntry(all, vol, channel) && PublishReq(vol, n) in reqs
    ensures HasEntry(drives, vol, channel)
  {
    var i :| 0 <= i < |all| && all[i].volume == Some(vol) && all[i].channel == channel;
    assert all[i] in drives;
  }

  /** A list in which each volume has one entry gives it one channel. */
  lemma OneChannel(drives: seq<Entry>, vol: Id, ch: string, ch2: string)
    requires OnceEach(drives) && HasEntry(drives, vol, ch) && HasEntry(drives, vol, ch2)
    ensures ch == ch2
  {
  }

  lemma OneVolume(drives: seq<Entry>, vol: Id, vol2: Id, ch: string)
    requires DistinctChannels(drives) && HasEntry(drives, vol, ch) && HasEntry(drives, vol2, ch)
    ensures vol == vol2
  {
  }

  lemma EntryOfAll(all: seq<Entry>, drives: seq<Entry>, vol: Id, ch: string)
    requires (forall e :: e in drives ==> e in all) && HasEntry(drives, vol, ch)
    ensures HasEntry(all, vol, ch)
  {
    var i :| 0 <= i < |drives| && drives[i].volume == Some(vol) && drives[i].channel == ch;
    assert drives[i] in all;
  }

  /** Concurrent attach loses nothing: for any number of requests, in any interleaving, with any
      failures and whatever mounted_on says, if none threatens `n` then every publish to `n` that
      reported success is in the final drive list at the channel it returned, and two of them share
      a channel exactly when they published the same volume. */
  lemma NothingLost(reqs: seq<Request>, start: map<Id, seq<Entry>>, es: seq<Event>, n: Id, t: nat, u: nat)
    requires n in start && OnceEach(start[n]) && !Threatened(reqs, start, n)
    requires forall m :: m in start ==> DistinctChannels(start[m])
    requires Vanish(n) !in es && RoomyRun(reqs, Init(start, |reqs|), es)
    requires t < |reqs| && u < |reqs| && reqs[t].PublishReq? && reqs[u].PublishReq? && reqs[t].node == reqs[u].node == n
    ensures var out := Run(reqs, Init(start, |reqs|), es);
            |out.pcs| == |reqs| && n in out.servers &&
            (out.pcs[t].Ended? && out.pcs[t].result.Attached? && out.pcs[u].Ended? && out.pcs[u].result.Attached? ==>
               && HasEntry(out.servers[n], reqs[t].vol, out.pcs[t].result.channel)
               && (out.pcs[t].result.channel == out.pcs[u].result.channel <==> reqs[t].vol == reqs[u].vol))
  {
    var out := Run(reqs, Init(start, |reqs|), es);
    UniqueChannels(reqs, Init(start, |reqs|), es);
    NoThreat(reqs, start, n);
    var all := start[n];
    if Private(reqs, start, n, start[n]) {
      KeptAfter(reqs, start, es, n);
      all := out.servers[n];
    } else {
      SettledAfter(reqs, start, es, n);
    }
    if out.pcs[t].Ended? && out.pcs[t].result.Attached? && out.pcs[u].Ended? && out.pcs[u].result.Attached? {
      assert !LosesAt(reqs, out, n, t) && !LosesAt(reqs, out, n, u);
      SameChannel(all, out.servers[n], reqs[t].vol, reqs[u].vol, out.pcs[t].result.channel, out.pcs[u].result.channel);
    }
  }

  lemma SameChannel(all: seq<Entry>, drives: seq<Entry>, vol: Id, vol2: Id, ch: string, ch2: string)
    requires OnceEach(all) && DistinctChannels(drives) && forall e :: e in drives ==> e in all
    requires HasEntry(drives, vol, ch) && HasEntry(drives, vol2, ch2)
    ensures ch == ch2 <==> vol == vol2
  {
    EntryOfAll(all, drives, vol, ch);
    EntryOfAll(all, drives, vol2, ch2);
    if vol == vol2 { OneChannel(all, vol, ch, ch2); }
    if ch == ch2 { OneVolume(drives, vol, vol2, ch); }
  }

  // ----- Alone, a thread does what the sequential operation does -----

  lemma RunCons(reqs: seq<Request>, s: System, e: Event, es: seq<Event>)
    ensures Run(reqs, s, [e] + es) == Run(reqs, Step(reqs, s, e), es)
  {
    assert ([e] + es)[1..] == es;
  }

  lemma RunAppend(reqs: seq<Request>, s: System, a: seq<Event>, b: seq<Event>)
    ensures Run(reqs, s, a + b) == Run(reqs, Run(reqs, s, a), b)
    decreases |a|
  {
    if a == [] {
      assert a + b == b;
    } else {
      assert (a + b)[1..] == a[1..] + b;
      RunAppend(reqs, Step(reqs, s, a[0]), a[1..], b);
    }
  }

  /** The migration requests of a publish, if any. */
  lemma SoloMigrate(reqs: seq<Request>, s: System, t: nat, lock: nat, drives: seq<Entry>, volumes: map<Id, string>,
                    calls: PublishCalls) returns (es: seq<Event>)
    requires t < |reqs| == |s.pcs| && reqs[t].PublishReq? && s.pcs[t] == Critical(lock, Fetched(drives))
    ensures var out := Run(reqs, s, es);
            match Migrate(Fleet(s.servers, volumes), reqs[t].vol, reqs[t].node, calls)
            case None => out == Leave(s, t, lock, Failure)
            case Some(g) => out == Goto(s.(servers := g.servers), t, Critical(lock, Attaching(drives)))
  {
    var node := reqs[t].node;
    var drive := Turn(t, Found, Done, calls.mounts);
    var source := Turn(t, calls.source, Done, []);
    var detach := Turn(t, Found, calls.detach, []);
    var s1 := Step(reqs, s, drive);
    var other := FirstOther(calls.mounts, node);
    RunCons(reqs, s, drive, []);
    if other.None? { return [drive]; }
    assert s1 == Goto(s, t, Critical(lock, Migrating(drives, other.value)));
    var s2 := Step(reqs, s1, source);
    RunCons(reqs, s, drive, [source]);
    RunCons(reqs, s1, source, []);
    if !Get(other.value in s.servers, calls.source).Found? { return [drive] + [source]; }
    var s3 := Step(reqs, s2, detach);
    RunCons(reqs, s, drive, [source] + [detach]);
    RunCons(reqs, s1, source, [detach]);
    RunCons(reqs, s2, detach, []);
    return [drive] + ([source] + [detach]);
  }

  /** From the drive's GET on. */
  lemma SoloAttach(reqs: seq<Request>, s: System, t: nat, lock: nat, volumes: map<Id, string>, calls: PublishCalls)
    returns (es: seq<Event>)
    requires t < |reqs| == |s.pcs| && reqs[t].PublishReq? && reqs[t].node in s.servers && !Holds(s.servers[reqs[t].node], reqs[t].vol)
    requires s.pcs[t] == Critical(lock, Fetched(s.servers[reqs[t].node])) && calls.server.Found?
    ensures var (g, result) := Publish(Fleet(s.servers, volumes), reqs[t].vol, reqs[t].node, calls);
            Run(reqs, s, es) == Leave(s.(servers := g.servers), t, lock, result)
  {
    var vol, node := reqs[t].vol, reqs[t].node;
    var drives := s.servers[node];
    if !Get(vol in volumes, calls.drive).Found? {
      es := [Turn(t, NotFound, Done, [])];
      assert es[1..] == [];
      return;
    }
    var migrate := SoloMigrate(reqs, s, t, lock, drives, volumes, calls);
    var migrated := Migrate(Fleet(s.servers, volumes), vol, node, calls);
    if migrated.None? { return migrate; }
    var attach := Turn(t, Found, calls.attach, []);
    RunAppend(reqs, s, migrate, [attach]);
    var s1 := Goto(s.(servers := migrated.value.servers), t, Critical(lock, Attaching(drives)));
    RunCons(reqs, s1, attach, []);
    SoloFinish(reqs, s, migrated.value, t, lock, drives, calls.attach);
    return migrate + [attach];
  }

  /** The last request of a publish. */
  lemma SoloFinish(reqs: seq<Request>, s: System, f: Fleet, t: nat, lock: nat, drives: seq<Entry>, write: Write)
    requires t < |reqs| == |s.pcs| && reqs[t].PublishReq? && reqs[t].node in f.servers
    ensures var s1 := Goto(s.(servers := f.servers), t, Critical(lock, Attaching(drives)));
            Step(reqs, s1, Turn(t, Found, write, [])) ==
            Leave(s.(servers := Update(f, reqs[t].node, drives + [Attachment(drives, reqs[t].vol)], write).servers), t, lock,
                  if write.Done? then Attached(NextChannel(drives)) else Failure)
  {
  }

  /** A publish that nobody interrupts has the effect and the result of the sequential operation,
      whatever its requests answer. */
  lemma SoloPublish(reqs: seq<Request>, s: System, t: nat, lock: nat, volumes: map<Id, string>, calls: PublishCalls)
    returns (es: seq<Event>)
    requires t < |reqs| == |s.pcs| && reqs[t].PublishReq? && s.pcs[t] == Critical(lock, Entered)
    ensures var (g, result) := Publish(Fleet(s.servers, volumes), reqs[t].vol, reqs[t].node, calls);
            Run(reqs, s, es) == Leave(s.(servers := g.servers), t, lock, result)
  {
    var vol, node := reqs[t].vol, reqs[t].node;
    var server := Turn(t, calls.server, Done, []);
    var s1 := Step(reqs, s, server);
    if !Get(node in s.servers, calls.server).Found? || Holds(s.servers[node], vol) {
      RunCons(reqs, s, server, []);
      return [server] + [];
    }
    var solo := SoloAttach(reqs, s1, t, lock, volumes, calls);
    RunCons(reqs, s, server, solo);
    return [server] + solo;
  }

  /** The re-check of an unpublish whose update was answered with an error. */
  lemma SoloRecheck(reqs: seq<Request>, s: System, t: nat, verify: Answer)
    requires t < |reqs| == |s.pcs| && reqs[t].UnpublishReq? && s.pcs[t] == Rechecking && reqs[t].node in s.servers
    ensures Run(reqs, s, [Turn(t, verify, Done, [])]) ==
            Goto(s, t, Ended(match verify
                             case NotFound => Detached
                             case Error => Failure
                             case Found => if Holds(s.servers[reqs[t].node], reqs[t].vol) then Failure else Detached))
  {
    RunCons(reqs, s, Turn(t, verify, Done, []), []);
    assert [Turn(t, verify, Done, [])] + [] == [Turn(t, verify, Done, [])];
  }

  /** From the update of an unpublish on. */
  lemma SoloDetach(reqs: seq<Request>, s: System, t: nat, kept: seq<Entry>, calls: UnpublishCalls) returns (es: seq<Event>)
    requires t < |reqs| == |s.pcs| && reqs[t].UnpublishReq? && s.pcs[t] == Detaching(kept) && reqs[t].node in s.servers
    ensures var servers := if calls.detach.Rejected? then s.servers else s.servers[reqs[t].node := kept];
            var result := if calls.detach.Done? then Detached else
                          match calls.verify
                          case NotFound => Detached
                          case Error => Failure
                          case Found => if Holds(servers[reqs[t].node], reqs[t].vol) then Failure else Detached;
            Run(reqs, s, es) == Goto(s.(servers := servers), t, Ended(result))
  {
    var put := Turn(t, Found, calls.detach, []);
    var s1 := Step(reqs, s, put);
    if calls.detach.Done? {
      es := [put] + [];
      RunCons(reqs, s, put, []);
    } else {
      es := [put] + [Turn(t, calls.verify, Done, [])];
      SoloRecheck(reqs, s1, t, calls.verify);
      RunCons(reqs, s, put, [Turn(t, calls.verify, Done, [])]);
    }
  }

  /** The same for an unpublish. */
  lemma SoloUnpublish(reqs: seq<Request>, s: System, t: nat, volumes: map<Id, string>, calls: UnpublishCalls)
    returns (es: seq<Event>)
    requires t < |reqs| == |s.pcs| && reqs[t].UnpublishReq? && s.pcs[t] == Start
    ensures var (g, result) := Unpublish(Fleet(s.servers, volumes), reqs[t].vol, reqs[t].node, calls);
            Run(reqs, s, es) == Goto(s.(servers := g.servers), t, Ended(result))
  {
    var vol, node := reqs[t].vol, reqs[t].node;
    var get := Turn(t, calls.server, Done, []);
    var s1 := Step(reqs, s, get);
    if !Get(node in s.servers, calls.server).Found? || !Holds(s.servers[node], vol) {
      RunCons(reqs, s, get, []);
      return [get] + [];
    }
    var rest := SoloDetach(reqs, s1, t, Removed(s.servers[node], vol), calls);
    RunCons(reqs, s, get, rest);
    return [get] + rest;
  }
}

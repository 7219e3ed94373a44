/** The impersonation token cache: concurrent gets and clears under a clock that never goes back.
    Times are in seconds. */
module Tokens {
  import opened Base

  const DEFAULT_BUFFER: int := 5 * 60
  const HTTP_TIMEOUT: int := 30
  const DEFAULT_LIFE: int := 15 * 60

  // ----- The cache key -----

  function Key(email: string, region: string): string {
    email + ":" + region
  }

  /** With regions free of ':', the key determines the pair. */
  lemma KeyInjective(email: string, region: string, email2: string, region2: string)
    requires Key(email, region) == Key(email2, region2) && ':' !in region && ':' !in region2
    ensures email == email2 && region == region2
  {
    var k := Key(email, region);
    assert k[|email|] == ':' && k[|email2|] == ':';
    assert forall i :: |email| < i < |k| ==> k[i] == region[i - |email| - 1];
    assert forall i :: |email2| < i < |k| ==> k[i] == region2[i - |email2| - 1];
    assert k[..|email|] == email && k[..|email2|] == email2;
    assert k[|email| + 1..] == region && k[|email2| + 1..] == region2;
  }

  /** A region with a ':' always shares its key with another pair. */
  lemma KeyCollides(email: string, region: string, i: nat)
    requires i < |region| && region[i] == ':'
    ensures Key(email, region) == Key(email + ":" + region[..i], region[i + 1..]) && email != email + ":" + region[..i]
  {
    assert region == region[..i] + ":" + region[i + 1..];
  }

  // ----- Interleaved gets and clears -----

  /** `life` is the expires_in of the answer, or the default of 15 minutes if it is absent. */
  datatype Issue = Issue(email: string, region: string, at: int, life: int)

  datatype Cached = Cached(token: nat, expiresAt: int)

  datatype Request = Get(email: string, region: string) | Clear | ClearUser(email: string, region: string)

  /** `InFlight` is the time between the server's answer and its arrival. A get ends with a token or
      an error, at a time, from the cache or not. */
  datatype Pc =
    | Start
    | Fetching
    | InFlight(token: nat)
    | Storing(token: nat, expiresAt: int)
    | Ended(result: Option<nat>, at: int, cached: bool)

  /** `issued` records every token the server has ever minted, in order. */
  datatype System = System(now: int, cache: map<string, Cached>, issued: seq<Issue>, pcs: seq<Pc>)

  /** The clock advances, or thread `t` takes a step; `reply` is the expires_in of a successful
      impersonation. */
  datatype Event = Tick(seconds: nat) | Turn(t: nat, reply: Option<int>)

  function Goto(s: System, t: nat, pc: Pc): System
    requires t < |s.pcs|
  {
    s.(pcs := s.pcs[t := pc])
  }

  /** IsExpired: the buffer reaches past the recorded expiry. */
  predicate Expired(entry: Cached, now: int, buffer: int) {
    now + buffer > entry.expiresAt
  }

  function StepGet(s: System, t: nat, email: string, region: string, reply: Option<int>, buffer: int): System
    requires t < |s.pcs|
  {
    var key := Key(email, region);
    match s.pcs[t]
    case Start =>
      if email == "" || region == "" then Goto(s, t, Ended(None, s.now, false))
      else if key in s.cache && !Expired(s.cache[key], s.now, buffer)
      then Goto(s, t, Ended(Some(s.cache[key].token), s.now, true))
      else Goto(s, t, Fetching)
    case Fetching =>
      if reply.None? then Goto(s, t, Ended(None, s.now, false))
      else
        var life := if reply.value == 0 then DEFAULT_LIFE else reply.value;
        Goto(s.(issued := s.issued + [Issue(email, region, s.now, life)]), t, InFlight(|s.issued|))
    case InFlight(token) =>
      if token < |s.issued| then Goto(s, t, Storing(token, s.now + s.issued[token].life)) else s
    case Storing(token, expiresAt) =>
      Goto(s.(cache := s.cache[key := Cached(token, expiresAt)]), t, Ended(Some(token), s.now, false))
    case Ended(_, _, _) => s
  }

  function Step(reqs: seq<Request>, buffer: int, s: System, e: Event): System {
    match e
    case Tick(seconds) => s.(now := s.now + seconds)
    case Turn(t, reply) =>
      if t >= |reqs| || t >= |s.pcs| then s
      else match reqs[t]
           case Get(email, region) => StepGet(s, t, email, region, reply, buffer)
           case Clear => Goto(s.(cache := map[]), t, Ended(None, s.now, false))
           case ClearUser(email, region) => Goto(s.(cache := s.cache - {Key(email, region)}), t, Ended(None, s.now, false))
  }

  function Run(reqs: seq<Request>, buffer: int, s: System, es: seq<Event>): System {
    if es == [] then s else Step(reqs, buffer, Run(reqs, buffer, s, es[..|es| - 1]), es[|es| - 1])
  }

  function Init(now: int, threads: nat): System {
    System(now, map[], [], seq(threads, _ => Start))
  }

  /** An answer arrives within `latency` seconds, or not at all. */
  predicate Prompt(s: System, e: Event, latency: int) {
    e.Turn? && e.t < |s.pcs| && s.pcs[e.t].InFlight? && s.pcs[e.t].token < |s.issued| ==>
      s.now <= s.issued[s.pcs[e.t].token].at + latency
  }

  /** The token was minted for a pair with this key, and the recorded expiry is at most `latency` late. */
  predicate Genuine(s: System, key: string, token: nat, expiresAt: int, latency: int) {
    token < |s.issued| &&
    var issue := s.issued[token];
    Key(issue.email, issue.region) == key && expiresAt <= issue.at + issue.life + latency
  }

  predicate ThreadGenuine(s: System, req: Request, pc: Pc, latency: int, buffer: int) {
    req.Get? ==>
      match pc
      case InFlight(token) =>
        token < |s.issued| && s.issued[token].email == req.email && s.issued[token].region == req.region
      case Storing(token, expiresAt) => Genuine(s, Key(req.email, req.region), token, expiresAt, latency)
      case Ended(Some(token), at, cached) =>
        && token < |s.issued| && Key(s.issued[token].email, s.issued[token].region) == Key(req.email, req.region)
        && (cached ==> at + buffer <= s.issued[token].at + s.issued[token].life + latency)
      case _ => true
  }

  ghost predicate AllGenuine(reqs: seq<Request>, s: System, latency: int, buffer: int) {
    && |s.pcs| == |reqs|
    && (forall k :: k in s.cache ==> Genuine(s, k, s.cache[k].token, s.cache[k].expiresAt, latency))
    && (forall t :: 0 <= t < |reqs| ==> ThreadGenuine(s, reqs[t], s.pcs[t], latency, buffer))
  }

  /** What was true of a token stays true when more tokens are minted and time passes. */
  lemma GenuineLasts(s: System, out: System, req: Request, pc: Pc, latency: int, buffer: int)
    requires s.issued <= out.issued && ThreadGenuine(s, req, pc, latency, buffer)
    ensures ThreadGenuine(out, req, pc, latency, buffer)
  {
  }

  lemma IssuedGrows(reqs: seq<Request>, buffer: int, s: System, e: Event)
    ensures var out := Step(reqs, buffer, s, e);
            s.issued <= out.issued && |out.pcs| == |s.pcs|
            && forall t :: 0 <= t < |s.pcs| && !(e.Turn? && e.t == t) ==> out.pcs[t] == s.pcs[t]
  {
  }

  lemma StepGenuine(reqs: seq<Request>, s: System, e: Event, latency: int, buffer: int)
    requires AllGenuine(reqs, s, latency, buffer) && Prompt(s, e, latency)
    ensures AllGenuine(reqs, Step(reqs, buffer, s, e), latency, buffer)
  {
    var out := Step(reqs, buffer, s, e);
    IssuedGrows(reqs, buffer, s, e);
    forall t | 0 <= t < |reqs| ensures ThreadGenuine(out, reqs[t], out.pcs[t], latency, buffer) {
      assert ThreadGenuine(s, reqs[t], s.pcs[t], latency, buffer);
      GenuineLasts(s, out, reqs[t], s.pcs[t], latency, buffer);
    }
    forall k | k in out.cache ensures Genuine(out, k, out.cache[k].token, out.cache[k].expiresAt, latency) {
      if k in s.cache && out.cache[k] == s.cache[k] {
        assert Genuine(s, k, s.cache[k].token, s.cache[k].expiresAt, latency);
      } else {
        assert ThreadGenuine(s, reqs[e.t], s.pcs[e.t], latency, buffer);
      }
    }
  }

  ghost predicate PromptRun(reqs: seq<Request>, buffer: int, s: System, es: seq<Event>, latency: int) {
    forall i :: 0 <= i < |es| ==> Prompt(Run(reqs, buffer, s, es[..i]), es[i], latency)
  }

  lemma {:induction false} RunGenuine(reqs: seq<Request>, buffer: int, s: System, es: seq<Event>, latency: int)
    requires AllGenuine(reqs, s, latency, buffer) && PromptRun(reqs, buffer, s, es, latency)
    ensures AllGenuine(reqs, Run(reqs, buffer, s, es), latency, buffer)
  {
    if es != [] {
      var n := |es| - 1;
      assert forall i :: 0 <= i < n ==> es[..n][..i] == es[..i];
      RunGenuine(reqs, buffer, s, es[..n], latency);
      StepGenuine(reqs, Run(reqs, buffer, s, es[..n]), es[n], latency, buffer);
    }
  }

  predicate PlainRegions(reqs: seq<Request>) {
    forall i :: 0 <= i < |reqs| && reqs[i].Get? ==> ':' !in reqs[i].region
  }

  /** The cache refines a direct fetch: in every interleaving of gets and clears, a token returned
      for a pair was minted for exactly that pair, and one served from the cache has, at the time
      it is served, at least the buffer minus the network latency of its life left. */
  lemma CacheRefinesFetch(reqs: seq<Request>, buffer: int, now: int, es: seq<Event>, latency: int, t: nat)
    requires PromptRun(reqs, buffer, Init(now, |reqs|), es, latency)
    requires t < |reqs| && reqs[t].Get?
    requires PlainRegions(reqs)
    ensures var s := Run(reqs, buffer, Init(now, |reqs|), es);
            |s.pcs| == |reqs| &&
            match s.pcs[t]
            case Ended(Some(token), at, cached) =>
              && token < |s.issued|
              && s.issued[token].email == reqs[t].email && s.issued[token].region == reqs[t].region
              && (cached ==> s.issued[token].at + s.issued[token].life - at >= buffer - latency)
            case _ => true
  {
    var s0 := Init(now, |reqs|);
    var s := Run(reqs, buffer, s0, es);
    RunGenuine(reqs, buffer, s0, es, latency);
    IssuedRegions(reqs, buffer, now, es);
    assert ThreadGenuine(s, reqs[t], s.pcs[t], latency, buffer);
    if s.pcs[t].Ended? && s.pcs[t].result.Some? {
      var issue := s.issued[s.pcs[t].result.value];
      KeyInjective(issue.email, issue.region, reqs[t].email, reqs[t].region);
    }
  }

  // ----- The buffer is not quite kept -----

  /** In this run, if it is prompt, thread `t` is not served from the cache with less than `left`
      seconds of its token's life to go. */
  predicate ServedWith(s: System, t: nat, left: int) {
    t < |s.pcs| ==>
      match s.pcs[t]
      case Ended(Some(token), at, true) => token < |s.issued| && s.issued[token].at + s.issued[token].life - at >= left
      case _ => true
  }

  ghost predicate KeepsBuffer(reqs: seq<Request>, buffer: int, now: int, es: seq<Event>, latency: int, t: nat) {
    PromptRun(reqs, buffer, Init(now, |reqs|), es, latency) && t < |reqs| && reqs[t].Get? && PlainRegions(reqs) ==>
      ServedWith(Run(reqs, buffer, Init(now, |reqs|), es), t, buffer)
  }

  /** A prompt run leads from `s` to `out`. */
  ghost predicate Path(reqs: seq<Request>, buffer: int, s: System, es: seq<Event>, latency: int, out: System) {
    Run(reqs, buffer, s, es) == out && PromptRun(reqs, buffer, s, es, latency)
  }

  /** One more step. */
  lemma Go(reqs: seq<Request>, buffer: int, s: System, before: seq<Event>, mid: System, e: Event, latency: int) returns (es: seq<Event>)
    requires Path(reqs, buffer, s, before, latency, mid) && Prompt(mid, e, latency)
    ensures Path(reqs, buffer, s, es, latency, Step(reqs, buffer, mid, e))
  {
    es := before + [e];
    assert es[..|before|] == before;
    forall i | 0 <= i < |before| ensures es[..i] == before[..i] && es[i] == before[i] { }
  }

  /** A get whose token's answer is on its way. */
  lemma SlowAnswer(reqs: seq<Request>, buffer: int, latency: nat, life: nat) returns (es: seq<Event>)
    requires |reqs| == 2 && reqs[0].Get? && reqs[0].email != "" && reqs[0].region != "" && life > 0
    ensures var issue := Issue(reqs[0].email, reqs[0].region, 0, life);
            Path(reqs, buffer, Init(0, 2), es, latency, System(latency, map[], [issue], [InFlight(0), Start]))
  {
    var issued := [Issue(reqs[0].email, reqs[0].region, 0, life)];
    es := Go(reqs, buffer, Init(0, 2), [], Init(0, 2), Turn(0, None), latency);
    var s1 := System(0, map[], [], [Fetching, Start]);
    assert Step(reqs, buffer, Init(0, 2), Turn(0, None)) == s1;
    es := Go(reqs, buffer, Init(0, 2), es, s1, Turn(0, Some(life)), latency);
    var s2 := System(0, map[], issued, [InFlight(0), Start]);
    assert Step(reqs, buffer, s1, Turn(0, Some(life))) == s2;
    es := Go(reqs, buffer, Init(0, 2), es, s2, Tick(latency), latency);
  }

  /** The first of two gets: its token's answer takes as long as it may. */
  lemma SlowGet(reqs: seq<Request>, buffer: int, latency: nat, life: nat) returns (es: seq<Event>)
    requires |reqs| == 2 && reqs[0].Get? && reqs[0].email != "" && reqs[0].region != "" && life > 0
    ensures var key, issue := Key(reqs[0].email, reqs[0].region), Issue(reqs[0].email, reqs[0].region, 0, life);
            Path(reqs, buffer, Init(0, 2), es, latency,
                 System(latency, map[key := Cached(0, latency + life)], [issue], [Ended(Some(0), latency, false), Start]))
  {
    var key, issued := Key(reqs[0].email, reqs[0].region), [Issue(reqs[0].email, reqs[0].region, 0, life)];
    es := SlowAnswer(reqs, buffer, latency, life);
    var s3 := System(latency, map[], issued, [InFlight(0), Start]);
    es := Go(reqs, buffer, Init(0, 2), es, s3, Turn(0, None), latency);
    var s4 := System(latency, map[], issued, [Storing(0, latency + life), Start]);
    assert Step(reqs, buffer, s3, Turn(0, None)) == s4;
    es := Go(reqs, buffer, Init(0, 2), es, s4, Turn(0, None), latency);
    assert Step(reqs, buffer, s4, Turn(0, None)) ==
           System(latency, map[key := Cached(0, latency + life)], issued, [Ended(Some(0), latency, false), Start]);
  }

  /** For every latency and every life that outlasts the buffer there is a prompt run in which a token
      is served from the cache with exactly the buffer minus the latency left: the bound is tight. */
  lemma BoundIsTight(email: string, region: string, buffer: int, latency: nat, life: nat) returns (es: seq<Event>)
    requires email != "" && region != "" && life > 0 && life >= buffer
    ensures var reqs := [Get(email, region), Get(email, region)];
            && PromptRun(reqs, buffer, Init(0, 2), es, latency)
            && var s := Run(reqs, buffer, Init(0, 2), es);
            && |s.pcs| == 2 && |s.issued| == 1 && s.pcs[1].Ended? && s.pcs[1].result == Some(0) && s.pcs[1].cached
            && s.issued[0].at + s.issued[0].life - s.pcs[1].at == buffer - latency
  {
    var reqs := [Get(email, region), Get(email, region)];
    es := SlowGet(reqs, buffer, latency, life);
    var s1 := Run(reqs, buffer, Init(0, 2), es);
    es := Go(reqs, buffer, Init(0, 2), es, s1, Tick(life - buffer), latency);
    var s2 := s1.(now := latency + life - buffer);
    es := Go(reqs, buffer, Init(0, 2), es, s2, Turn(1, None), latency);
    assert Step(reqs, buffer, s2, Turn(1, None)) == s2.(pcs := [Ended(Some(0), latency, false), Ended(Some(0), s2.now, true)]);
  }

  /** So every prompt run keeps the whole buffer exactly when answers take no time at all. */
  lemma KeepsBufferIff(buffer: int, latency: nat)
    ensures (forall reqs, now, es, t :: KeepsBuffer(reqs, buffer, now, es, latency, t)) <==> latency == 0
  {
    if latency == 0 {
      forall reqs: seq<Request>, now, es, t: nat
        | PromptRun(reqs, buffer, Init(now, |reqs|), es, latency) && t < |reqs| && reqs[t].Get? && PlainRegions(reqs)
        ensures KeepsBuffer(reqs, buffer, now, es, latency, t)
      {
        CacheRefinesFetch(reqs, buffer, now, es, latency, t);
      }
    } else {
      var reqs := [Get("a", "r"), Get("a", "r")];
      var es := BoundIsTight("a", "r", buffer, latency, if buffer > 0 then buffer else 1);
      assert !KeepsBuffer(reqs, buffer, 0, es, latency, 1);
    }
  }

  /** Tokens are minted for requested pairs only. */
  lemma {:induction false} IssuedRegions(reqs: seq<Request>, buffer: int, now: int, es: seq<Event>)
    requires PlainRegions(reqs)
    ensures var s := Run(reqs, buffer, Init(now, |reqs|), es);
            |s.pcs| == |reqs| && forall i :: 0 <= i < |s.issued| ==> ':' !in s.issued[i].region
  {
    if es != [] { IssuedRegions(reqs, buffer, now, es[..|es| - 1]); }
  }

  /** What a clear forgets: everything, or one pair and nothing else. */
  lemma ClearForgets(reqs: seq<Request>, buffer: int, s: System, t: nat, reply: Option<int>, key: string)
    requires t < |reqs| == |s.pcs| && !reqs[t].Get?
    ensures var out, forgets := Step(reqs, buffer, s, Turn(t, reply)), reqs[t].Clear? || key == reqs[t].email + ":" + reqs[t].region;
            && out.issued == s.issued
            && (key in out.cache <==> key in s.cache && !forgets)
            && (key in out.cache ==> out.cache[key] == s.cache[key])
  {
  }

  /** A get that follows a clear in the same cache state therefore goes to the server. */
  lemma ClearedIsFetched(reqs: seq<Request>, buffer: int, s: System, t: nat, u: nat)
    requires t < |reqs| == |s.pcs| && u < |reqs| && t != u && !reqs[t].Get? && reqs[u].Get? && s.pcs[u] == Start
    requires reqs[u].email != "" && reqs[u].region != ""
    requires reqs[t].ClearUser? ==> reqs[t].email == reqs[u].email && reqs[t].region == reqs[u].region
    ensures Step(reqs, buffer, Step(reqs, buffer, s, Turn(t, None)), Turn(u, None)).pcs[u] == Fetching
  {
    ClearForgets(reqs, buffer, s, t, None, Key(reqs[u].email, reqs[u].region));
  }

  /** A get without an e-mail or a region fails at once: no request is made for nobody. */
  lemma {:induction false} NobodyIsImpersonated(reqs: seq<Request>, buffer: int, now: int, es: seq<Event>)
    ensures var s := Run(reqs, buffer, Init(now, |reqs|), es);
            && |s.pcs| == |reqs|
            && (forall i :: 0 <= i < |s.issued| ==> s.issued[i].email != "" && s.issued[i].region != "")
            && (forall t :: 0 <= t < |reqs| && reqs[t].Get? && s.pcs[t] != Start && (reqs[t].email == "" || reqs[t].region == "") ==>
                  s.pcs[t].Ended? && s.pcs[t].result.None?)
  {
    if es != [] { NobodyIsImpersonated(reqs, buffer, now, es[..|es| - 1]); }
  }

  /** With the default buffer and HTTP timeout, a cached token is good for at least 270 more seconds. */
  lemma DefaultsKeepTokensAlive(reqs: seq<Request>, now: int, es: seq<Event>, t: nat)
    requires PromptRun(reqs, DEFAULT_BUFFER, Init(now, |reqs|), es, HTTP_TIMEOUT)
    requires t < |reqs| && reqs[t].Get?
    requires PlainRegions(reqs)
    ensures var s := Run(reqs, DEFAULT_BUFFER, Init(now, |reqs|), es);
            |s.pcs| == |reqs| &&
            match s.pcs[t]
            case Ended(Some(token), at, true) => token < |s.issued| && at + 270 <= s.issued[token].at + s.issued[token].life
            case _ => true
  {
    CacheRefinesFetch(reqs, DEFAULT_BUFFER, now, es, HTTP_TIMEOUT, t);
  }
}

/** The impersonation client as it runs: three caches and three requests. */
module TokenClient {
  import opened Base
  import Tokens

  /** A token the client holds and when it takes it to expire. */
  datatype Held = Held(token: string, expiresAt: int)

  /** The answer to one token request: when it arrives and what it says. */
  datatype Reply = Reply(arrives: int, token: string, expiresIn: int)

  /** The clock at each cache check and the answers, `None` for an error. */
  datatype Calls = Calls(checked: int, saChecked: int, sa: Option<Reply>, rptChecked: int, rpt: Option<Reply>, user: Option<Reply>)

  datatype Caches = Caches(sa: Option<Held>, rpt: Option<Held>, users: map<string, Held>)

  /** The Go client stores "" for "no token". */
  function Stored(token: string, expiresAt: int): Option<Held> {
    if token == "" then None else Some(Held(token, expiresAt))
  }

  /** A service account or RPT token is reused if it outlives the buffer. */
  predicate Reusable(held: Option<Held>, now: int, buffer: int) {
    held.Some? && now + buffer < held.value.expiresAt
  }

  /** One of the two service tokens: the cache afterwards and the token. */
  function Service(held: Option<Held>, now: int, buffer: int, reply: Option<Reply>): (Option<Held>, Option<string>) {
    if Reusable(held, now, buffer) then (held, Some(held.value.token))
    else match reply
         case None => (held, None)
         case Some(r) => (Stored(r.token, r.arrives + r.expiresIn), Some(r.token))
  }

  /** A service token that is used either comes from the cache, and then outlives the buffer when it is
      checked, or from a new answer, which is then what the cache holds; a failure changes nothing. */
  lemma ServiceTokenSource(held: Option<Held>, now: int, buffer: int, reply: Option<Reply>)
    ensures var (after, token) := Service(held, now, buffer, reply);
            match token
            case None => after == held && reply.None? && !Reusable(held, now, buffer)
            case Some(t) =>
              || (after == held && held.Some? && t == held.value.token && held.value.expiresAt - now > buffer)
              || (!Reusable(held, now, buffer) && reply.Some? && t == reply.value.token &&
                  (t == "" ==> after.None?) && (t != "" ==> after == Some(Held(t, reply.value.arrives + reply.value.expiresIn))))
  {
  }

  /** Asked again while the token it just returned outlives the buffer, it answers the same without a
      request; an empty token is never reused. */
  lemma ServiceTokenReused(held: Option<Held>, now: int, buffer: int, reply: Option<Reply>, later: int, reply2: Option<Reply>)
    requires Service(held, now, buffer, reply).1.Some?
    ensures var (after, token) := Service(held, now, buffer, reply);
            && (after.Some? && later + buffer < after.value.expiresAt ==> Service(after, later, buffer, reply2) == (after, token))
            && (after.None? ==> token == Some(""))
    ensures var after := Service(held, now, buffer, reply).0;
            after.None? || later + buffer >= after.value.expiresAt ==> Service(after, later, buffer, None).1.None?
  {
  }

  /** When the client takes an impersonated token to expire. */
  function Expiry(r: Reply): int {
    r.arrives + if r.expiresIn == 0 then Tokens.DEFAULT_LIFE else r.expiresIn
  }

  /** fetchImpersonatedToken. */
  function Fetch(c: Caches, buffer: int, calls: Calls): (Caches, Option<Held>) {
    var (sa, saToken) := Service(c.sa, calls.saChecked, buffer, calls.sa);
    if saToken.None? then (c, None) else
    var (rpt, rptToken) := Service(c.rpt, calls.rptChecked, buffer, calls.rpt);
    if rptToken.None? then (c.(sa := sa), None) else
    var d := c.(sa := sa, rpt := rpt);
    if calls.user.None? || calls.user.value.token == "" then (d, None)
    else (d, Some(Held(calls.user.value.token, Expiry(calls.user.value))))
  }

  /** GetImpersonatedToken. */
  function GetToken(c: Caches, email: string, region: string, buffer: int, calls: Calls): (Caches, Option<string>) {
    var key := Tokens.Key(email, region);
    if email == "" || region == "" then (c, None)
    else if key in c.users && !(calls.checked + buffer > c.users[key].expiresAt) then (c, Some(c.users[key].token))
    else
      var (d, fetched) := Fetch(c, buffer, calls);
      if fetched.None? then (d, None)
      else (d.(users := d.users[key := fetched.value]), Some(fetched.value.token))
  }

  /** A second get, made while the token outlives the buffer, needs no request and returns the same
      token, whatever its own requests would have answered; other pairs are not affected. */
  lemma SecondGetIsCached(c: Caches, email: string, region: string, buffer: int, calls: Calls, later: Calls)
    requires GetToken(c, email, region, buffer, calls).1.Some?
    ensures var (d, token) := GetToken(c, email, region, buffer, calls);
            var key := Tokens.Key(email, region);
            && key in d.users && d.users[key].token == token.value
            && (forall k :: k != key ==> (k in d.users <==> k in c.users) && (k in c.users ==> d.users[k] == c.users[k]))
            && (later.checked + buffer <= d.users[key].expiresAt ==> GetToken(d, email, region, buffer, later) == (d, token))
  {
  }

  /** A get is served from the cache, or from a fresh impersonation; a failed one leaves the user
      cache alone. */
  lemma GetTokenSource(c: Caches, email: string, region: string, buffer: int, calls: Calls)
    ensures var (d, token) := GetToken(c, email, region, buffer, calls);
            var key := Tokens.Key(email, region);
            match token
            case None => d.users == c.users
            case Some(t) =>
              || (d == c && key in c.users && t == c.users[key].token && c.users[key].expiresAt - calls.checked >= buffer)
              || (calls.user.Some? && t == calls.user.value.token != "" && d.users == c.users[key := Held(t, Expiry(calls.user.value))])
  {
  }

  /** The exact condition for a get to return a token: the arguments are set, and the pair has a live
      cached token or all three requests that are needed answer with one. */
  lemma GetTokenIff(c: Caches, email: string, region: string, buffer: int, calls: Calls)
    ensures var key := email + ":" + region;
            GetToken(c, email, region, buffer, calls).1.Some? <==>
              && email != "" && region != ""
              && ((key in c.users && calls.checked + buffer <= c.users[key].expiresAt)
                  || (&& (Reusable(c.sa, calls.saChecked, buffer) || calls.sa.Some?)
                      && (Reusable(c.rpt, calls.rptChecked, buffer) || calls.rpt.Some?)
                      && calls.user.Some? && calls.user.value.token != ""))
  {
  }

  /** A get that is not served from the cache keeps each service token it obtains on the way, even if it
      fails later: with the answers it got and until the seconds they say. */
  lemma GetKeepsServiceTokens(c: Caches, email: string, region: string, buffer: int, calls: Calls)
    requires email != "" && region != ""
    requires !(email + ":" + region in c.users && calls.checked + buffer <= c.users[email + ":" + region].expiresAt)
    ensures var d := GetToken(c, email, region, buffer, calls).0;
            && (Reusable(c.sa, calls.saChecked, buffer) || calls.sa.None? ==> d.sa == c.sa)
            && (!Reusable(c.sa, calls.saChecked, buffer) && calls.sa.Some? && calls.sa.value.token != "" ==>
                  d.sa == Some(Held(calls.sa.value.token, calls.sa.value.arrives + calls.sa.value.expiresIn)))
            && (Reusable(c.rpt, calls.rptChecked, buffer) || calls.rpt.None? ==> d.rpt == c.rpt)
            && (!Reusable(c.rpt, calls.rptChecked, buffer) && calls.rpt.Some? && calls.rpt.value.token != ""
                && (Reusable(c.sa, calls.saChecked, buffer) || calls.sa.Some?) ==>
                  d.rpt == Some(Held(calls.rpt.value.token, calls.rpt.value.arrives + calls.rpt.value.expiresIn)))
  {
  }

  // ----- Runs of one client -----

  datatype Op = Get(email: string, region: string, calls: Calls) | Clear | ClearUser(email: string, region: string)

  function Do(c: Caches, buffer: int, op: Op): (Caches, Option<string>) {
    match op
    case Get(email, region, calls) => GetToken(c, email, region, buffer, calls)
    case Clear => (Caches(None, None, map[]), None)
    case ClearUser(email, region) => (c.(users := c.users - {Tokens.Key(email, region)}), None)
  }

  function RunOps(c: Caches, buffer: int, ops: seq<Op>): Caches {
    if ops == [] then c else Do(RunOps(c, buffer, ops[..|ops| - 1]), buffer, ops[|ops| - 1]).0
  }

  /** `op` is a get of this pair that was answered with `token`, which lives until `until`: the seconds of
      expires_in after the answer, or 15 minutes if it gives none. */
  predicate Answers(op: Op, key: string, token: string, until: int) {
    && op.Get? && op.email + ":" + op.region == key && op.calls.user.Some? && op.calls.user.value.token == token
    && until == op.calls.user.value.arrives + if op.calls.user.value.expiresIn == 0 then 900 else op.calls.user.value.expiresIn
  }

  /** `op` makes the client forget the token of this pair. */
  predicate Forgets(op: Op, key: string) {
    op.Clear? || (op.ClearUser? && op.email + ":" + op.region == key)
  }

  /** Operation `i` was answered with this token, and nothing has made the client forget it since. */
  predicate StoredBy(ops: seq<Op>, i: nat, key: string, held: Held) {
    i < |ops| && Answers(ops[i], key, held.token, held.expiresAt) && forall j :: i < j < |ops| ==> !Forgets(ops[j], key)
  }

  lemma {:induction false} CacheOrigin(buffer: int, ops: seq<Op>, key: string)
    requires key in RunOps(Caches(None, None, map[]), buffer, ops).users
    ensures exists i :: 0 <= i < |ops| && StoredBy(ops, i, key, RunOps(Caches(None, None, map[]), buffer, ops).users[key])
  {
    var n := |ops| - 1;
    var before := RunOps(Caches(None, None, map[]), buffer, ops[..n]);
    var after := RunOps(Caches(None, None, map[]), buffer, ops);
    if key in before.users && after.users[key] == before.users[key] && !Forgets(ops[n], key) {
      CacheOrigin(buffer, ops[..n], key);
      var i :| 0 <= i < n && StoredBy(ops[..n], i, key, before.users[key]);
      assert forall j :: 0 <= j < n ==> ops[..n][j] == ops[j];
      assert StoredBy(ops, i, key, after.users[key]);
    } else {
      assert StoredBy(ops, n, key, after.users[key]);
    }
  }

  /** In every run of gets and clears of one client, a token that a get returns is that of an answer to a
      get of the same pair: of this one, or of an earlier one that has not been cleared since and whose
      token, when it was checked, had the whole buffer to go by the client's clock. */
  lemma ServedTokensAreLive(buffer: int, ops: seq<Op>, email: string, region: string, calls: Calls)
    requires GetToken(RunOps(Caches(None, None, map[]), buffer, ops), email, region, buffer, calls).1.Some?
    ensures var token := GetToken(RunOps(Caches(None, None, map[]), buffer, ops), email, region, buffer, calls).1.value;
            || (calls.user.Some? && token == calls.user.value.token)
            || exists i, until :: 0 <= i < |ops| && Answers(ops[i], email + ":" + region, token, until)
                                  && (forall j :: i < j < |ops| ==> !Forgets(ops[j], email + ":" + region))
                                  && calls.checked + buffer <= until
  {
    var c, key := RunOps(Caches(None, None, map[]), buffer, ops), email + ":" + region;
    if key in c.users && calls.checked + buffer <= c.users[key].expiresAt {
      CacheOrigin(buffer, ops, key);
      var i :| 0 <= i < |ops| && StoredBy(ops, i, key, c.users[key]);
      assert Answers(ops[i], key, c.users[key].token, c.users[key].expiresAt);
    }
  }

  class ImpersonationClient {
    const buffer: int

    var saToken: string
    var saTokenExpiresAt: int
    var rptToken: string
    var rptTokenExpiresAt: int
    var tokenCache: map<string, Held>

    ghost function State(): Caches
      reads this
    {
      Caches(Stored(saToken, saTokenExpiresAt), Stored(rptToken, rptTokenExpiresAt), tokenCache)
    }

    constructor (tokenExpiryBuffer: int)
      ensures buffer == if tokenExpiryBuffer == 0 then 300 else tokenExpiryBuffer
      ensures State() == Caches(None, None, map[])
    {
      buffer := if tokenExpiryBuffer == 0 then Tokens.DEFAULT_BUFFER else tokenExpiryBuffer;
      saToken, saTokenExpiresAt, rptToken, rptTokenExpiresAt, tokenCache := "", 0, "", 0, map[];
    }

    method GetServiceAccountToken(now: int, reply: Option<Reply>) returns (token: Option<string>)
      modifies this`saToken, this`saTokenExpiresAt
      ensures (State().sa, token) == Service(old(State()).sa, now, buffer, reply)
    {
      if saToken != "" && now + buffer < saTokenExpiresAt { return Some(saToken); }
      if reply.None? { return None; }
      saToken, saTokenExpiresAt := reply.value.token, reply.value.arrives + reply.value.expiresIn;
      return Some(reply.value.token);
    }

    method GetRPTToken(now: int, reply: Option<Reply>) returns (token: Option<string>)
      modifies this`rptToken, this`rptTokenExpiresAt
      ensures (State().rpt, token) == Service(old(State()).rpt, now, buffer, reply)
    {
      if rptToken != "" && now + buffer < rptTokenExpiresAt { return Some(rptToken); }
      if reply.None? { return None; }
      rptToken, rptTokenExpiresAt := reply.value.token, reply.value.arrives + reply.value.expiresIn;
      return Some(reply.value.token);
    }

    method GetImpersonatedToken(email: string, region: string, calls: Calls) returns (token: Option<string>)
      modifies this
      ensures (State(), token) == GetToken(old(State()), email, region, buffer, calls)
    {
      if email == "" || region == "" { return None; }
      var cacheKey := Tokens.Key(email, region);
      if cacheKey in tokenCache && !(calls.checked + buffer > tokenCache[cacheKey].expiresAt) {
        return Some(tokenCache[cacheKey].token);
      }
      var sa := GetServiceAccountToken(calls.saChecked, calls.sa);
      if sa.None? { return None; }
      var rpt := GetRPTToken(calls.rptChecked, calls.rpt);
      if rpt.None? { return None; }
      if calls.user.None? || calls.user.value.token == "" { return None; }
      tokenCache := tokenCache[cacheKey := Held(calls.user.value.token, Expiry(calls.user.value))];
      return Some(calls.user.value.token);
    }

    method ClearCache()
      modifies this
      ensures State() == Caches(None, None, map[])
    {
      saToken, saTokenExpiresAt := "", 0;
      rptToken, rptTokenExpiresAt := "", 0;
      tokenCache := map[];
    }

    method ClearUserToken(email: string, region: string)
      modifies this`tokenCache
      ensures tokenCache == old(tokenCache) - {Tokens.Key(email, region)}
    {
      tokenCache := tokenCache - {Tokens.Key(email, region)};
    }
  }
}

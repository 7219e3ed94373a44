/** The shared tag table under concurrent processes, one request per step. A PUT replaces a tag's whole
    resource list by one worked out from the list the process has read, so it can undo what others
    wrote in between. Requests that fail change nothing and are left out of the runs. */
module TagRaces {
  import opened Base
  import opened Tags

  /** `read[p]` is the table as process `p` last read it. */
  datatype System = System(tags: seq<Tag>, read: seq<seq<Tag>>)

  /** Requests of process `p` about resource `r`: GET the table; PUT tag `i` with or without `r`; POST a tag. */
  datatype Request =
    | List(p: nat)
    | PutWithout(p: nat, i: nat, r: Id)
    | PutWith(p: nat, i: nat, r: Id)
    | Post(p: nat, name: string, r: Id)

  /** The list a PUT sends. */
  function Sent(s: System, e: Request): seq<Id>
    requires (e.PutWith? || e.PutWithout?) && e.p < |s.read| && e.i < |s.read[e.p]|
  {
    var known := s.read[e.p][e.i].resources;
    if e.PutWith? then known + [e.r] else Without(known, {e.r})
  }

  predicate Puts(s: System, e: Request) {
    (e.PutWith? || e.PutWithout?) && e.p < |s.read| && e.i < |s.read[e.p]| && e.i < |s.tags|
  }

  function Step(s: System, e: Request): System {
    if Puts(s, e) then s.(tags := s.tags[e.i := Tag(s.read[e.p][e.i].name, Sent(s, e))])
    else match e
         case List(p) => if p < |s.read| then s.(read := s.read[p := s.tags]) else s
         case Post(_, name, r) => s.(tags := s.tags + [Tag(name, [r])])
         case _ => s
  }

  function Run(s: System, es: seq<Request>): System {
    if es == [] then s else Step(Run(s, es[..|es| - 1]), es[|es| - 1])
  }

  /** Tags are never deleted or renamed: what was read is an older state of the same tags. */
  ghost predicate SameTags(s: System) {
    forall p :: 0 <= p < |s.read| ==>
      |s.read[p]| <= |s.tags| && forall i :: 0 <= i < |s.read[p]| ==> s.read[p][i].name == s.tags[i].name
  }

  lemma StepSameTags(s: System, e: Request)
    requires SameTags(s)
    ensures SameTags(Step(s, e))
  {
  }

  // ----- The frame -----

  /** The list that the process works on differs from the current one in more than `r`. */
  predicate Stale(s: System, e: Request) {
    Puts(s, e) && Without(s.read[e.p][e.i].resources, {e.r}) != Without(s.tags[e.i].resources, {e.r})
  }

  function TouchedBy(e: Request): set<Id> {
    if e.List? then {} else {e.r}
  }

  lemma SentFrame(s: System, e: Request)
    requires Puts(s, e)
    ensures Without(Sent(s, e), {e.r}) == Without(s.read[e.p][e.i].resources, {e.r})
  {
    var known := s.read[e.p][e.i].resources;
    WithoutAppend(known, e.r, {e.r});
    WithoutTwice(known, {e.r}, {e.r});
    assert {e.r} + {e.r} == {e.r};
  }

  lemma PutFrameIff(tags: seq<Tag>, i: nat, sent: seq<Id>, known: seq<Id>, r: Id)
    requires i < |tags| && Without(sent, {r}) == Without(known, {r})
    ensures Framed(tags, tags[i := Tag(tags[i].name, sent)], {r}) <==> Without(known, {r}) == Without(tags[i].resources, {r})
  {
    var out := tags[i := Tag(tags[i].name, sent)];
    assert out[i].resources == sent;
    assert forall j :: 0 <= j < |tags| && j != i ==> out[j] == tags[j];
  }

  /** The exact condition for one request to leave all other resources where they are. */
  lemma FrameIff(s: System, e: Request)
    requires SameTags(s)
    ensures Framed(s.tags, Step(s, e).tags, TouchedBy(e)) <==> !Stale(s, e)
  {
    if Puts(s, e) {
      SentFrame(s, e);
      PutFrameIff(s.tags, e.i, Sent(s, e), s.read[e.p][e.i].resources, e.r);
    } else if e.Post? {
      PostFrame(s.tags, e.name, e.r);
    } else {
      assert Step(s, e).tags == s.tags;
    }
  }

  lemma PostFrame(tags: seq<Tag>, name: string, r: Id)
    ensures Framed(tags, tags + [Tag(name, [r])], {r})
  {
    WithoutAppend([], r, {r});
    assert [] + [r] == [r];
  }

  function Touched(es: seq<Request>): set<Id> {
    if es == [] then {} else Touched(es[..|es| - 1]) + TouchedBy(es[|es| - 1])
  }

  /** In every interleaving of any processes' requests in which no PUT is stale, resources that nobody
      named keep their place and order in every tag. */
  lemma {:induction false} FreshRunFrames(s: System, es: seq<Request>)
    requires SameTags(s) && forall i :: 0 <= i < |es| ==> !Stale(Run(s, es[..i]), es[i])
    ensures SameTags(Run(s, es)) && Framed(s.tags, Run(s, es).tags, Touched(es))
  {
    if es != [] {
      var n := |es| - 1;
      assert forall i :: 0 <= i < n ==> es[..n][..i] == es[..i];
      FreshRunFrames(s, es[..n]);
      var before := Run(s, es[..n]);
      StepSameTags(before, es[n]);
      FrameIff(before, es[n]);
      FramedTrans(s.tags, before.tags, Run(s, es).tags, Touched(es[..n]), TouchedBy(es[n]));
    }
  }

  // ----- Unique names -----

  /** The exact condition for a request to keep tag names unique: it does not POST a tag that is there. */
  lemma NamesIff(s: System, e: Request)
    requires SameTags(s) && UniqueNames(s.tags)
    ensures UniqueNames(Step(s, e).tags) <==> !(e.Post? && Find(s.tags, e.name) < |s.tags|)
  {
    var out := Step(s, e).tags;
    if e.Post? && Find(s.tags, e.name) < |s.tags| {
      assert out[Find(s.tags, e.name)].name == out[|s.tags|].name;
    }
  }

  /** Two processes that both list a table without the tag before either POSTs it make it twice, with
      every list readable and every request successful. */
  lemma TwoPostsDuplicate(tags: seq<Tag>, name: string, x: Id, y: Id)
    requires UniqueNames(tags) && Find(tags, name) == |tags|
    ensures var s := Run(System(tags, [[], []]), [List(0), List(1)]);
            && s.read == [tags, tags] && Find(s.read[0], name) == Find(s.read[1], name) == |tags|
            && UniqueNames(Step(s, Post(0, name, x)).tags)
            && !UniqueNames(Step(Step(s, Post(0, name, x)), Post(1, name, y)).tags)
  {
    var s0 := System(tags, [[], []]);
    assert [List(0)][..0] == [] && [List(0), List(1)][..1] == [List(0)];
    assert Run(s0, [List(0)]) == System(tags, [tags, []]);
    var s := System(tags, [tags, tags]);
    assert Run(s0, [List(0), List(1)]) == s;
    NamesIff(s, Post(0, name, x));
    var s1 := Step(s, Post(0, name, x));
    assert s1.tags[|tags|].name == name;
    NamesIff(s1, Post(1, name, y));
  }

  // ----- Losing a reservation -----

  /** The PUT rewrites the one `service:*` tag that reserves `x` with a list that lacks `x`. */
  predicate Erases(s: System, e: Request, x: Id) {
    && Puts(s, e) && SERVICE_PREFIX <= s.tags[e.i].name && x !in s.read[e.p][e.i].resources
    && forall j :: 0 <= j < |s.tags| && j != e.i && SERVICE_PREFIX <= s.tags[j].name ==> x !in s.tags[j].resources
  }

  /** The exact condition under which a request about another resource loses a reservation. */
  lemma ReservationLostIff(s: System, e: Request, x: Id)
    requires SameTags(s) && x in Reserved(s.tags) && x !in TouchedBy(e)
    ensures x !in Reserved(Step(s, e).tags) <==> Erases(s, e, x)
  {
    var out := Step(s, e).tags;
    if Puts(s, e) {
      assert x in Sent(s, e) <==> x in s.read[e.p][e.i].resources;
      assert out[e.i].resources == Sent(s, e) && out[e.i].name == s.tags[e.i].name;
    }
    if !Erases(s, e, x) {
      var i :| 0 <= i < |s.tags| && SERVICE_PREFIX <= s.tags[i].name && x in s.tags[i].resources;
      if !Puts(s, e) || i != e.i {
        assert out[i] == s.tags[i];
      } else if x !in s.read[e.p][e.i].resources {
        var j :| 0 <= j < |s.tags| && j != e.i && SERVICE_PREFIX <= s.tags[j].name && x in s.tags[j].resources;
        assert out[j] == s.tags[j];
      }
    }
  }

  /** Two clusters with a service of the same name share its tag. When both read it before either writes,
      the first one's reservation is lost, although both of its requests succeeded. */
  lemma SharedTagLoses(tags: seq<Tag>, i: nat, x: Id, y: Id)
    requires i < |tags| && SERVICE_PREFIX <= tags[i].name && x != y && x !in Reserved(tags)
    ensures var mid := Run(System(tags, [tags, tags]), [PutWith(0, i, x)]);
            x in Reserved(mid.tags) && x !in Reserved(Step(mid, PutWith(1, i, y)).tags)
  {
    var s := System(tags, [tags, tags]);
    var mid := Step(s, PutWith(0, i, x));
    assert [PutWith(0, i, x)][..0] == [];
    assert Run(s, [PutWith(0, i, x)]) == mid;
    var tag := mid.tags[i];
    assert tag.resources[|tags[i].resources|] == x;
    assert SERVICE_PREFIX <= tag.name && x in tag.resources;
    assert x in Reserved(mid.tags);
    assert Erases(mid, PutWith(1, i, y), x);
    ReservationLostIff(mid, PutWith(1, i, y), x);
  }

  /** Uninterrupted, the requests of an ensure call have its effect. */
  lemma SoloEnsure(s: System, p: nat, add: Add, r: Id) returns (es: seq<Request>)
    requires p < |s.read| && add.listing.Answered? && add.write
    ensures Run(s, es).tags == Ensure(s.tags, add, r)
  {
    var list := List(p);
    var s1 := s.(read := s.read[p := s.tags]);
    var i := Find(s.tags, add.name);
    var write := if i == |s.tags| then Post(p, add.name, r) else PutWith(p, i, r);
    assert [list][..0] == [] && [list, write][..1] == [list];
    assert Run(s, [list]) == s1;
    assert Run(s, [list, write]) == Step(s1, write);
    es := if i < |s.tags| && r in s.tags[i].resources then [list] else [list, write];
  }

  /** And a removal from one tag takes out the resource and nothing else. */
  lemma SoloRemove(s: System, p: nat, i: nat, r: Id)
    requires p < |s.read| && i < |s.tags|
    ensures var out := Run(s, [List(p), PutWithout(p, i, r)]).tags;
            && |out| == |s.tags| && (forall j :: 0 <= j < |out| && j != i ==> out[j] == s.tags[j])
            && out[i].name == s.tags[i].name && r !in out[i].resources
            && forall x :: x != r ==> (x in out[i].resources <==> x in s.tags[i].resources)
  {
    var list, put := List(p), PutWithout(p, i, r);
    var s1 := s.(read := s.read[p := s.tags]);
    assert [list][..0] == [] && [list, put][..1] == [list];
    assert Run(s, [list]) == s1;
    assert Run(s, [list, put]) == Step(s1, put);
  }
}

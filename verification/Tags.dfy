/** The shared tag table and the list-filter-put algorithm that three components run over it:
    the load balancer controller (CCM), the CSI driver and the machine controller (CAPCS).

    None of them deletes a tag, so a tag's position in the table stands for its UUID. */
module Tags {
  import opened Base

  datatype Tag = Tag(name: string, resources: seq<Id>)

  datatype Component = Ccm | Csi | Capcs

  /** How the GET of the tag list ends. The CCM checks neither the HTTP status nor the JSON
      decoding, so an error page reads as an empty list (`Garbled`). */
  datatype Listing = Answered | Failed | Garbled

  /** One ensure-tag call: its tag name, how its GET ends and whether its PUT or POST succeeds. */
  datatype Add = Add(name: string, listing: Listing, write: bool)

  /** The outcomes of one removal pass: its GET (a missing token counts as a failed GET) and the
      positions of the tags whose PUT fails. */
  datatype StripCalls = StripCalls(listing: Listing, failed: set<nat>)

  /** The outcomes of one CCM tagging: its token, the clean-up pass, then the ensure calls in the
      order in which the Go map of desired tags happens to be ranged over. */
  datatype TagCalls = TagCalls(token: bool, strip: StripCalls, adds: seq<Add>)

  const CLUSTER_PREFIX := "cluster:"
  const SERVICE_PREFIX := "service:"
  const MANAGED_BY_CCM := "managed-by:cloudsigma-ccm"

  predicate Managed(c: Component, name: string) {
    || CLUSTER_PREFIX <= name
    || match c
       case Ccm => SERVICE_PREFIX <= name || name == MANAGED_BY_CCM
       case Csi => "volume:" <= name || name == "managed-by:cloudsigma-csi"
       case Capcs => "pool:" <= name || name == "managed-by:cloudsigma-capcs"
  }

  /** The tags the CSI driver puts on a drive (`owned`: the volume name) and the machine controller on
      a server (`owned`: the pool), in order. */
  function OwnTags(c: Component, cluster: string, owned: string): (names: seq<string>)
    requires !c.Ccm?
    ensures forall n :: n in names ==> Managed(c, n)
    ensures names != [] && names[0] == (if c.Csi? then "managed-by:cloudsigma-csi" else "managed-by:cloudsigma-capcs")
    ensures cluster != "" ==> CLUSTER_PREFIX + cluster in names
    ensures owned != "" ==> (if c.Csi? then "volume:" else "pool:") + owned in names
    ensures |names| == 1 + (if cluster != "" then 1 else 0) + (if owned != "" then 1 else 0)
  {
    [if c.Csi? then "managed-by:cloudsigma-csi" else "managed-by:cloudsigma-capcs"]
    + (if cluster != "" then [CLUSTER_PREFIX + cluster] else [])
    + (if owned != "" then [(if c.Csi? then "volume:" else "pool:") + owned] else [])
  }

  /** The components share the cluster tags and no others: untagging by one leaves what another put on. */
  lemma ComponentsApart(c: Component, d: Component, name: string)
    requires Managed(c, name) && Managed(d, name)
    ensures c == d || CLUSTER_PREFIX <= name
  {
    assert SERVICE_PREFIX[0] == 's' && MANAGED_BY_CCM[0] == 'm' && "volume:"[0] == 'v' && "pool:"[0] == 'p';
    assert "managed-by:cloudsigma-csi"[0] == 'm' && "managed-by:cloudsigma-capcs"[0] == 'm';
    assert MANAGED_BY_CCM[23] == 'c' && "managed-by:cloudsigma-csi"[23] == 's' && "managed-by:cloudsigma-capcs"[23] == 'a';
  }

  /** `rs` without the members of `gone`. */
  function Without(rs: seq<Id>, gone: set<Id>): (out: seq<Id>)
    ensures forall x :: x in out <==> x in rs && x !in gone
  {
    Filter(rs, x => x !in gone)
  }

  lemma WithoutNone(rs: seq<Id>, gone: set<Id>)
    requires forall x :: x in rs ==> x !in gone
    ensures Without(rs, gone) == rs
  {
    FilterKeepsAll(rs, x => x !in gone);
  }

  lemma WithoutTwice(rs: seq<Id>, a: set<Id>, b: set<Id>)
    ensures Without(Without(rs, a), b) == Without(rs, a + b)
  {
    FilterTwice(rs, x => x !in a, x => x !in b, x => x !in a + b);
  }

  lemma WithoutAppend(rs: seq<Id>, r: Id, gone: set<Id>)
    ensures Without(rs + [r], gone) == Without(rs, gone) + if r in gone then [] else [r]
  {
    FilterSnoc(rs, r, x => x !in gone);
  }

  /** The removal pass: drop `r` from every managed tag that is not in `keep`. */
  function Strip(c: Component, tags: seq<Tag>, r: Id, keep: set<string>, calls: StripCalls): (out: seq<Tag>)
    ensures |out| == |tags|
  {
    if !calls.listing.Answered? then tags else
      seq(|tags|, i requires 0 <= i < |tags| =>
        if Managed(c, tags[i].name) && tags[i].name !in keep && i !in calls.failed
        then Tag(tags[i].name, Without(tags[i].resources, {r})) else tags[i])
  }

  /** Position of the first tag called `name`, or `|tags|`. */
  function Find(tags: seq<Tag>, name: string): (i: nat)
    ensures i <= |tags|
    ensures i < |tags| ==> tags[i].name == name
    ensures forall j :: 0 <= j < i ==> tags[j].name != name
  {
    if tags == [] then 0 else
      var i := Find(tags[..|tags| - 1], name);
      if i < |tags| - 1 then i else if tags[i].name == name then i else |tags|
  }

  /** The resources of the first tag called `name`. */
  function Members(tags: seq<Tag>, name: string): seq<Id> {
    var i := Find(tags, name);
    if i < |tags| then tags[i].resources else []
  }

  function Ensure(tags: seq<Tag>, add: Add, r: Id): seq<Tag> {
    var i := if add.listing.Garbled? then |tags| else Find(tags, add.name);
    if add.listing.Failed? || !add.write then tags
    else if i == |tags| then tags + [Tag(add.name, [r])]
    else if r in tags[i].resources then tags
    else tags[i := Tag(add.name, tags[i].resources + [r])]
  }

  function EnsureAll(tags: seq<Tag>, adds: seq<Add>, r: Id): seq<Tag> {
    if adds == [] then tags
    else Ensure(EnsureAll(tags, adds[..|adds| - 1], r), adds[|adds| - 1], r)
  }

  /** The CCM's tagging: clean stale tags, then add the resource to each desired tag. The other two
      components only do the second half. */
  function Retag(tags: seq<Tag>, r: Id, desired: set<string>, calls: TagCalls): seq<Tag> {
    if !calls.token then tags else EnsureAll(Strip(Ccm, tags, r, desired, calls.strip), calls.adds, r)
  }

  // ----- Frame: nobody else's membership moves, whatever fails -----

  /** Seen without the resources in `touched`, `out` is `tags` plus empty tags. */
  ghost predicate Framed(tags: seq<Tag>, out: seq<Tag>, touched: set<Id>) {
    && |tags| <= |out|
    && (forall i :: 0 <= i < |tags| ==>
          out[i].name == tags[i].name && Without(out[i].resources, touched) == Without(tags[i].resources, touched))
    && (forall i :: |tags| <= i < |out| ==> Without(out[i].resources, touched) == [])
  }

  lemma FramedTrans(a: seq<Tag>, b: seq<Tag>, c: seq<Tag>, r: set<Id>, s: set<Id>)
    requires Framed(a, b, r) && Framed(b, c, s)
    ensures Framed(a, c, r + s)
  {
    forall i | 0 <= i < |c|
      ensures i < |a| ==> c[i].name == a[i].name && Without(c[i].resources, r + s) == Without(a[i].resources, r + s)
      ensures i >= |a| ==> Without(c[i].resources, r + s) == []
    {
      assert r + s == s + r;
      WithoutTwice(c[i].resources, s, r);
      if i < |b| {
        WithoutTwice(b[i].resources, s, r);
        WithoutTwice(b[i].resources, r, s);
        if i < |a| { WithoutTwice(a[i].resources, r, s); }
      }
    }
  }

  lemma StripFrame(c: Component, tags: seq<Tag>, r: Id, keep: set<string>, calls: StripCalls)
    ensures Framed(tags, Strip(c, tags, r, keep, calls), {r})
  {
    forall i | 0 <= i < |tags|
      ensures Without(Without(tags[i].resources, {r}), {r}) == Without(tags[i].resources, {r})
    {
      WithoutTwice(tags[i].resources, {r}, {r});
      assert {r} + {r} == {r};
    }
  }

  lemma EnsureFrame(tags: seq<Tag>, add: Add, r: Id)
    ensures Framed(tags, Ensure(tags, add, r), {r})
  {
    WithoutAppend([], r, {r});
    assert [] + [r] == [r];
    var i := Find(tags, add.name);
    if i < |tags| { WithoutAppend(tags[i].resources, r, {r}); }
  }

  lemma {:induction false} EnsureAllFrame(tags: seq<Tag>, adds: seq<Add>, r: Id)
    ensures Framed(tags, EnsureAll(tags, adds, r), {r})
  {
    if adds != [] {
      var before := EnsureAll(tags, adds[..|adds| - 1], r);
      EnsureAllFrame(tags, adds[..|adds| - 1], r);
      EnsureFrame(before, adds[|adds| - 1], r);
      FramedTrans(tags, before, EnsureAll(tags, adds, r), {r}, {r});
      assert {r} + {r} == {r};
    }
  }

  lemma RetagFrame(tags: seq<Tag>, r: Id, desired: set<string>, calls: TagCalls)
    ensures Framed(tags, Retag(tags, r, desired, calls), {r})
  {
    var stripped := Strip(Ccm, tags, r, desired, calls.strip);
    StripFrame(Ccm, tags, r, desired, calls.strip);
    EnsureAllFrame(stripped, calls.adds, r);
    FramedTrans(tags, stripped, EnsureAll(stripped, calls.adds, r), {r}, {r});
    assert {r} + {r} == {r};
  }

  /** One operation of any component on the shared table. */
  datatype Op =
    | Retagging(r: Id, desired: set<string>, calls: TagCalls)
    | Tagging(r: Id, adds: seq<Add>)
    | Untagging(c: Component, r: Id, strip: StripCalls)

  function Apply(tags: seq<Tag>, op: Op): seq<Tag> {
    match op
    case Retagging(r, desired, calls) => Retag(tags, r, desired, calls)
    case Tagging(r, adds) => EnsureAll(tags, adds, r)
    case Untagging(c, r, strip) => Strip(c, tags, r, {}, strip)
  }

  lemma ApplyFrame(tags: seq<Tag>, op: Op)
    ensures Framed(tags, Apply(tags, op), {op.r})
  {
    match op {
      case Retagging(r, desired, calls) => RetagFrame(tags, r, desired, calls);
      case Tagging(r, adds) => EnsureAllFrame(tags, adds, r);
      case Untagging(c, r, strip) => StripFrame(c, tags, r, {}, strip);
    }
  }

  function ApplyAll(tags: seq<Tag>, ops: seq<Op>): seq<Tag> {
    if ops == [] then tags else Apply(ApplyAll(tags, ops[..|ops| - 1]), ops[|ops| - 1])
  }

  function Touched(ops: seq<Op>): set<Id> {
    set i | 0 <= i < |ops| :: ops[i].r
  }

  /** Whatever the three components do to the table, with whatever failures, every resource
      they did not name keeps its place and order in every tag. */
  lemma {:induction false} AnyRunFrames(tags: seq<Tag>, ops: seq<Op>)
    ensures Framed(tags, ApplyAll(tags, ops), Touched(ops))
  {
    if ops != [] {
      var n := |ops| - 1;
      var before := ApplyAll(tags, ops[..n]);
      AnyRunFrames(tags, ops[..n]);
      ApplyFrame(before, ops[n]);
      FramedTrans(tags, before, ApplyAll(tags, ops), Touched(ops[..n]), {ops[n].r});
      assert Touched(ops) == Touched(ops[..n]) + {ops[n].r};
    }
  }

  // ----- Tag update law: what one successful tagging achieves -----

  ghost predicate UniqueNames(tags: seq<Tag>) {
    forall i, j :: 0 <= i < j < |tags| ==> tags[i].name != tags[j].name
  }

  predicate Clean(calls: StripCalls) {
    calls.listing.Answered? && calls.failed == {}
  }

  /** Some ensure call is for the tag `name`. */
  predicate Names(adds: seq<Add>, name: string) {
    exists i :: 0 <= i < |adds| && adds[i].name == name
  }

  /** Every ensure call succeeds and together they name exactly the desired tags. */
  predicate Covers(adds: seq<Add>, desired: set<string>) {
    && (forall i :: 0 <= i < |adds| ==> adds[i].listing.Answered? && adds[i].write)
    && (forall i :: 0 <= i < |adds| ==> adds[i].name in desired)
    && (forall d :: d in desired ==> Names(adds, d))
  }

  /** A tagging all of whose calls succeed. */
  predicate Done(calls: TagCalls, desired: set<string>) {
    calls.token && Clean(calls.strip) && Covers(calls.adds, desired)
  }

  /** What the list of tag `name` must become: it mentions no iteration order. */
  function Settled(name: string, before: seq<Id>, r: Id, desired: set<string>): seq<Id> {
    if name in desired then (if r in before then before else before + [r])
    else if Managed(Ccm, name) then Without(before, {r})
    else before
  }

  lemma MembersAt(tags: seq<Tag>, i: nat)
    requires UniqueNames(tags) && i < |tags|
    ensures Find(tags, tags[i].name) == i && Members(tags, tags[i].name) == tags[i].resources
  {
    assert Find(tags, tags[i].name) <= i;
  }

  lemma SameNames(tags: seq<Tag>, out: seq<Tag>, name: string)
    requires |out| == |tags| && forall i :: 0 <= i < |tags| ==> out[i].name == tags[i].name
    ensures Find(out, name) == Find(tags, name)
  {
    var i, j := Find(tags, name), Find(out, name);
    assert !(i < j);
    assert !(j < i);
  }

  /** The list `m` after `r` was added to it if `named`. */
  function Joined(m: seq<Id>, r: Id, named: bool): seq<Id> {
    if !named || r in m then m else m + [r]
  }

  lemma EnsureMembers(tags: seq<Tag>, add: Add, r: Id, name: string)
    requires UniqueNames(tags) && add.listing.Answered? && add.write
    ensures UniqueNames(Ensure(tags, add, r))
    ensures Members(Ensure(tags, add, r), name) == Joined(Members(tags, name), r, add.name == name)
  {
    var i := Find(tags, add.name);
    var out := Ensure(tags, add, r);
    if i == |tags| {
      var j := Find(out, name);
      if j < |tags| { MembersAt(tags, j); } else { assert name == add.name || Find(tags, name) == |tags|; }
    } else {
      SameNames(tags, out, name);
    }
  }

  lemma NamesSnoc(adds: seq<Add>, add: Add, name: string)
    ensures Names(adds + [add], name) <==> Names(adds, name) || add.name == name
  {
    if Names(adds, name) {
      var i :| 0 <= i < |adds| && adds[i].name == name;
      assert (adds + [add])[i].name == name;
    }
    if add.name == name { assert (adds + [add])[|adds|].name == name; }
  }

  lemma JoinedTwice(m: seq<Id>, r: Id, a: bool, b: bool)
    ensures Joined(Joined(m, r, a), r, b) == Joined(m, r, a || b)
  {
  }

  lemma {:induction false} EnsureAllMembers(tags: seq<Tag>, adds: seq<Add>, r: Id, name: string)
    requires UniqueNames(tags)
    requires forall i :: 0 <= i < |adds| ==> adds[i].listing.Answered? && adds[i].write
    ensures UniqueNames(EnsureAll(tags, adds, r))
    ensures Members(EnsureAll(tags, adds, r), name) == Joined(Members(tags, name), r, Names(adds, name))
  {
    if adds != [] {
      var front, last := adds[..|adds| - 1], adds[|adds| - 1];
      EnsureAllMembers(tags, front, r, name);
      EnsureMembers(EnsureAll(tags, front, r), last, r, name);
      NamesSnoc(front, last, name);
      assert front + [last] == adds;
      JoinedTwice(Members(tags, name), r, Names(front, name), last.name == name);
    }
  }

  lemma StripMembers(c: Component, tags: seq<Tag>, r: Id, keep: set<string>, calls: StripCalls, name: string)
    requires UniqueNames(tags) && Clean(calls)
    ensures UniqueNames(Strip(c, tags, r, keep, calls))
    ensures var m := Members(tags, name);
            Members(Strip(c, tags, r, keep, calls), name) ==
            if Managed(c, name) && name !in keep then Without(m, {r}) else m
  {
    SameNames(tags, Strip(c, tags, r, keep, calls), name);
    WithoutNone([], {r});
  }

  /** A removal pass call by call: the resource leaves exactly those tags of the component, outside `keep`,
      whose PUT goes through; without a readable list it leaves none. */
  lemma StripExactly(c: Component, tags: seq<Tag>, r: Id, keep: set<string>, calls: StripCalls, i: nat)
    requires i < |tags|
    ensures var out := Strip(c, tags, r, keep, calls);
            && out[i].name == tags[i].name
            && (r in out[i].resources <==>
                  r in tags[i].resources
                  && !(calls.listing.Answered? && Managed(c, tags[i].name) && tags[i].name !in keep && i !in calls.failed))
            && (forall x :: x != r ==> (x in out[i].resources <==> x in tags[i].resources))
  {
  }

  /** The tag update law: a successful tagging leaves the resource in exactly the desired
      managed tags, keeps names unique, and is the same for every order of the ensure calls. */
  lemma TagLaw(tags: seq<Tag>, r: Id, desired: set<string>, calls: TagCalls, name: string)
    requires UniqueNames(tags) && Done(calls, desired)
    ensures UniqueNames(Retag(tags, r, desired, calls))
    ensures Members(Retag(tags, r, desired, calls), name) == Settled(name, Members(tags, name), r, desired)
  {
    StripMembers(Ccm, tags, r, desired, calls.strip, name);
    EnsureAllMembers(Strip(Ccm, tags, r, desired, calls.strip), calls.adds, r, name);
  }

  /** Tagging twice is tagging once, whatever the two orders: the table does not change at all. */
  lemma TagIdempotent(tags: seq<Tag>, r: Id, desired: set<string>, calls: TagCalls, again: TagCalls)
    requires UniqueNames(tags)
    requires Done(calls, desired)
    requires Done(again, desired)
    ensures Retag(Retag(tags, r, desired, calls), r, desired, again) == Retag(tags, r, desired, calls)
  {
    var out := Retag(tags, r, desired, calls);
    TagLaw(tags, r, desired, calls, "");
    forall i | 0 <= i < |out| ensures Strip(Ccm, out, r, desired, again.strip)[i] == out[i] {
      TagLaw(tags, r, desired, calls, out[i].name);
      MembersAt(out, i);
      if Managed(Ccm, out[i].name) && out[i].name !in desired {
        WithoutNone(out[i].resources, {r});
      }
    }
    assert Strip(Ccm, out, r, desired, again.strip) == out;
    forall i | 0 <= i < |again.adds| ensures r in Members(out, again.adds[i].name) {
      assert again.adds[i].name in desired;
      TagLaw(tags, r, desired, calls, again.adds[i].name);
    }
    EnsureNothing(out, again.adds, r);
  }

  lemma {:induction false} EnsureNothing(tags: seq<Tag>, adds: seq<Add>, r: Id)
    requires forall i :: 0 <= i < |adds| ==> r in Members(tags, adds[i].name) && adds[i].listing.Answered?
    ensures EnsureAll(tags, adds, r) == tags
  {
    if adds != [] {
      EnsureNothing(tags, adds[..|adds| - 1], r);
    }
  }

  /** Untagging after tagging leaves the resource in no managed tag and everything else as it was. */
  lemma UntagAfterTag(tags: seq<Tag>, r: Id, desired: set<string>, calls: TagCalls, strip: StripCalls,
                      name: string)
    requires UniqueNames(tags) && Done(calls, desired) && Clean(strip)
    requires forall d :: d in desired ==> Managed(Ccm, d)
    ensures Members(Strip(Ccm, Retag(tags, r, desired, calls), r, {}, strip), name) ==
            if Managed(Ccm, name) then Without(Members(tags, name), {r}) else Members(tags, name)
  {
    TagLaw(tags, r, desired, calls, name);
    var out := Retag(tags, r, desired, calls);
    StripMembers(Ccm, out, r, {}, strip, name);
    WithoutAppend(Members(tags, name), r, {r});
    WithoutTwice(Members(tags, name), {r}, {r});
    assert {r} + {r} == {r};
  }

  /** The same for the other two components, which only add: untagging undoes a tagging whose tags
      the component manages. */
  lemma UntagAfterAdds(c: Component, tags: seq<Tag>, r: Id, adds: seq<Add>, strip: StripCalls, name: string)
    requires UniqueNames(tags) && Clean(strip)
    requires forall i :: 0 <= i < |adds| ==> adds[i].listing.Answered? && adds[i].write && Managed(c, adds[i].name)
    ensures Members(Strip(c, EnsureAll(tags, adds, r), r, {}, strip), name) ==
            if Managed(c, name) then Without(Members(tags, name), {r}) else Members(tags, name)
  {
    EnsureAllMembers(tags, adds, r, name);
    StripMembers(c, EnsureAll(tags, adds, r), r, {}, strip, name);
    WithoutAppend(Members(tags, name), r, {r});
  }

  // ----- Unique names -----

  /** An error page in place of the tag list makes the CCM create a tag that is there already. */
  predicate Duplicates(tags: seq<Tag>, add: Add) {
    add.listing.Garbled? && add.write && Find(tags, add.name) < |tags|
  }

  /** The exact condition for an ensure call to keep names unique. */
  lemma EnsureUniqueIff(tags: seq<Tag>, add: Add, r: Id)
    requires UniqueNames(tags)
    ensures UniqueNames(Ensure(tags, add, r)) <==> !Duplicates(tags, add)
  {
    var out := Ensure(tags, add, r);
    if Duplicates(tags, add) {
      assert out[Find(tags, add.name)].name == out[|tags|].name;
    }
  }

  lemma EnsureRepairsNothing(tags: seq<Tag>, add: Add, r: Id)
    requires !UniqueNames(tags)
    ensures !UniqueNames(Ensure(tags, add, r))
  {
    var i, j :| 0 <= i < j < |tags| && tags[i].name == tags[j].name;
    assert Ensure(tags, add, r)[i].name == Ensure(tags, add, r)[j].name;
  }

  /** Ensure call `i` of a tagging makes a tag that is there by then. */
  predicate DuplicatesAt(tags: seq<Tag>, adds: seq<Add>, r: Id, i: nat)
    requires i < |adds|
  {
    Duplicates(EnsureAll(tags, adds[..i], r), adds[i])
  }

  /** And for a whole tagging: no ensure call of it duplicates a tag. */
  lemma {:induction false} EnsureAllUniqueIff(tags: seq<Tag>, adds: seq<Add>, r: Id)
    requires UniqueNames(tags)
    ensures UniqueNames(EnsureAll(tags, adds, r)) <==>
            forall i :: 0 <= i < |adds| ==> !DuplicatesAt(tags, adds, r, i)
  {
    if adds != [] {
      var n := |adds| - 1;
      EnsureAllUniqueIff(tags, adds[..n], r);
      var before := EnsureAll(tags, adds[..n], r);
      forall i | 0 <= i < n ensures DuplicatesAt(tags, adds[..n], r, i) == DuplicatesAt(tags, adds, r, i) {
        assert adds[..n][..i] == adds[..i];
      }
      assert DuplicatesAt(tags, adds, r, n) == Duplicates(before, adds[n]);
      if UniqueNames(before) {
        EnsureUniqueIff(before, adds[n], r);
      } else {
        EnsureRepairsNothing(before, adds[n], r);
      }
    }
  }

  lemma RetagUniqueIff(tags: seq<Tag>, r: Id, desired: set<string>, calls: TagCalls)
    requires UniqueNames(tags) && calls.token
    ensures var stripped := Strip(Ccm, tags, r, desired, calls.strip);
            UniqueNames(Retag(tags, r, desired, calls)) <==>
            forall i :: 0 <= i < |calls.adds| ==> !DuplicatesAt(stripped, calls.adds, r, i)
  {
    EnsureAllUniqueIff(Strip(Ccm, tags, r, desired, calls.strip), calls.adds, r);
  }

  // ----- The reservation read off the table -----

  /** The IPs that carry a `service:*` tag. */
  function Reserved(tags: seq<Tag>): set<Id> {
    set i, r | 0 <= i < |tags| && SERVICE_PREFIX <= tags[i].name && r in tags[i].resources :: r
  }

  lemma ReservedFrame(tags: seq<Tag>, out: seq<Tag>, r: Id)
    requires Framed(tags, out, {r})
    ensures Reserved(out) - {r} == Reserved(tags) - {r}
  {
    forall x | x != r ensures x in Reserved(out) <==> x in Reserved(tags) {
      if x in Reserved(out) {
        var i :| 0 <= i < |out| && SERVICE_PREFIX <= out[i].name && x in out[i].resources;
        assert x in Without(out[i].resources, {r});
        assert i < |tags| && x in Without(tags[i].resources, {r});
      }
      if x in Reserved(tags) {
        var i :| 0 <= i < |tags| && SERVICE_PREFIX <= tags[i].name && x in tags[i].resources;
        assert x in Without(tags[i].resources, {r});
        assert x in Without(out[i].resources, {r});
      }
    }
  }

  /** Once an ensure call for a `service:*` tag went through, the IP is reserved, whatever the
      later calls do. */
  lemma {:induction false} EnsureReserves(tags: seq<Tag>, adds: seq<Add>, r: Id, i: nat)
    requires i < |adds| && adds[i].listing.Answered? && adds[i].write && SERVICE_PREFIX <= adds[i].name
    ensures r in Reserved(EnsureAll(tags, adds, r))
  {
    var n := |adds| - 1;
    var before := EnsureAll(tags, adds[..n], r);
    var out := EnsureAll(tags, adds, r);
    if i < n {
      EnsureReserves(tags, adds[..n], r, i);
      var k :| 0 <= k < |before| && SERVICE_PREFIX <= before[k].name && r in before[k].resources;
      assert r in out[k].resources && out[k].name == before[k].name;
    } else {
      var k := Find(before, adds[n].name);
      assert r in out[k].resources && out[k].name == adds[n].name;
    }
  }

  /** A complete removal pass of the CCM frees the IP. */
  lemma StripFrees(tags: seq<Tag>, r: Id, calls: StripCalls)
    requires Clean(calls)
    ensures r !in Reserved(Strip(Ccm, tags, r, {}, calls))
  {
  }
}

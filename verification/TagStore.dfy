/** The tag loops as the three components run them against the remote table. */
module TagStore {
  import opened Base
  import opened Tags

  /** The remote table. Each method is one HTTP request. */
  class TagApi {
    var tags: seq<Tag>

    constructor ()
      ensures tags == []
    {
      tags := [];
    }

    /** The list as the caller decodes it. */
    method List(listing: Listing) returns (ok: bool, objects: seq<Tag>)
      ensures ok <==> !listing.Failed?
      ensures objects == if listing.Answered? then tags else []
    {
      ok := !listing.Failed?;
      objects := if listing.Answered? then tags else [];
    }

    method Put(position: nat, name: string, resources: seq<Id>, ok: bool)
      requires position < |tags|
      modifies this
      ensures tags == if ok then old(tags)[position := Tag(name, resources)] else old(tags)
    {
      if ok { tags := tags[position := Tag(name, resources)]; }
    }

    method Post(name: string, resources: seq<Id>, ok: bool)
      modifies this
      ensures tags == if ok then old(tags) + [Tag(name, resources)] else old(tags)
    {
      if ok { tags := tags + [Tag(name, resources)]; }
    }
  }

  /** The list of `tag` rebuilt without `r`, and whether `r` was there. */
  method RemoveResource(tag: Tag, r: Id) returns (found: bool, newResources: seq<Id>)
    ensures found <==> r in tag.resources
    ensures newResources == Without(tag.resources, {r})
  {
    found, newResources := false, [];
    for i := 0 to |tag.resources|
      invariant newResources == Without(tag.resources[..i], {r})
      invariant found <==> r in tag.resources[..i]
    {
      WithoutSnoc(tag.resources, i, {r});
      if tag.resources[i] == r {
        found := true;
      } else {
        newResources := newResources + [tag.resources[i]];
      }
    }
    assert tag.resources[..|tag.resources|] == tag.resources;
  }

  lemma WithoutSnoc(rs: seq<Id>, i: nat, gone: set<Id>)
    requires i < |rs|
    ensures Without(rs[..i + 1], gone) == Without(rs[..i], gone) + if rs[i] !in gone then [rs[i]] else []
  {
    WithoutAppend(rs[..i], rs[i], gone);
    assert rs[..i] + [rs[i]] == rs[..i + 1];
  }

  /** cleanStaleTags, untagIPInCloudSigma, untagDrive and UntagServer: one loop over the listed tags,
      one PUT per managed tag that holds the resource. */
  method StripResource(api: TagApi, c: Component, r: Id, keep: set<string>, calls: StripCalls)
    modifies api
    ensures api.tags == Strip(c, old(api.tags), r, keep, calls)
  {
    var ok, objects := api.List(calls.listing);
    if !ok { return; }
    ghost var goal := Strip(c, api.tags, r, keep, calls);
    for i := 0 to |objects|
      invariant |api.tags| == |goal|
      invariant objects == [] || objects == old(api.tags)
      invariant forall j :: 0 <= j < i ==> api.tags[j] == goal[j]
      invariant forall j :: i <= j < |goal| ==> api.tags[j] == old(api.tags)[j]
    {
      var tag := objects[i];
      if Managed(c, tag.name) && tag.name !in keep {
        var found, newResources := RemoveResource(tag, r);
        if found {
          api.Put(i, tag.name, newResources, i !in calls.failed);
        } else {
          WithoutNone(tag.resources, {r});
        }
      }
    }
  }

  /** ensureTagWithIP and both copies of ensureTagWithResource. */
  method EnsureTag(api: TagApi, add: Add, r: Id)
    modifies api
    ensures api.tags == Ensure(old(api.tags), add, r)
  {
    var ok, objects := api.List(add.listing);
    if !ok { return; }
    var i := 0;
    while i < |objects| && objects[i].name != add.name
      invariant 0 <= i <= |objects|
      invariant forall j :: 0 <= j < i ==> objects[j].name != add.name
    {
      i := i + 1;
    }
    if i == |objects| {
      api.Post(add.name, [r], add.write);
    } else if r !in objects[i].resources {
      api.Put(i, add.name, objects[i].resources + [r], add.write);
    }
  }

  /** The loop of ensure calls shared by all three components. */
  method EnsureTags(api: TagApi, adds: seq<Add>, r: Id)
    modifies api
    ensures api.tags == EnsureAll(old(api.tags), adds, r)
  {
    for i := 0 to |adds|
      invariant api.tags == EnsureAll(old(api.tags), adds[..i], r)
    {
      assert adds[..i + 1][..i] == adds[..i];
      EnsureTag(api, adds[i], r);
    }
    assert adds[..|adds|] == adds;
  }

  /** tagIPInCloudSigma. */
  method RetagResource(api: TagApi, r: Id, desired: set<string>, calls: TagCalls)
    modifies api
    ensures api.tags == Retag(old(api.tags), r, desired, calls)
  {
    if !calls.token { return; }
    StripResource(api, Ccm, r, desired, calls.strip);
    EnsureTags(api, calls.adds, r);
  }
}

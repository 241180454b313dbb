/**
 The bulk cleanup of agent images: what it may remove, what it must keep, and what it reports.
 */
module ImageCleanup {
  import opened ImageTags

  /** One image of the repository on the daemon, under each of its tags. */
  datatype Image = Image(id: string, tags: seq<Tag>)

  /** What one agent record says about its image. */
  datatype Pin = Pin(harness: string, repo: string, tag: Tag, imageId: string)

  /** A tag names one image. */
  predicate TagsResolve(images: seq<Image>) {
    forall i, j, t | 0 <= i < |images| && 0 <= j < |images| && t in images[i].tags && t in images[j].tags :: i == j
  }

  /** A record of this harness was created against this tag of this repository. */
  predicate Named(pins: seq<Pin>, harness: string, repo: string, tag: Tag) {
    exists p :: p in pins && p.harness == harness && p.repo == repo && p.tag == tag && tag != ""
  }

  predicate PinnedId(pins: seq<Pin>, harness: string, id: string) {
    exists p :: p in pins && p.harness == harness && p.imageId == id && id != ""
  }

  predicate Local(images: seq<Image>, tag: Tag) {
    exists i :: 0 <= i < |images| && tag in images[i].tags
  }

  /** The tag is another name of an image some record of this harness pins. */
  predicate Alias(images: seq<Image>, pins: seq<Pin>, harness: string, tag: Tag) {
    exists i :: 0 <= i < |images| && tag in images[i].tags && PinnedId(pins, harness, images[i].id)
  }

  /** The tags and image IDs the records of one harness pin. */
  method AgentImageUsage(pins: seq<Pin>, harness: string, repo: string) returns (tags: set<Tag>, ids: set<string>)
    ensures forall t :: t in tags <==> Named(pins, harness, repo, t)
    ensures forall id :: id in ids <==> PinnedId(pins, harness, id)
  {
    tags, ids := {}, {};
    for k := 0 to |pins|
      invariant forall t :: t in tags <==> Named(pins[..k], harness, repo, t)
      invariant forall id :: id in ids <==> PinnedId(pins[..k], harness, id)
    {
      var p := pins[k];
      assert pins[..k + 1] == pins[..k] + [p];
      UsageGrows(pins[..k], p, harness, repo);
      if p.harness == harness {
        if p.repo == repo && p.tag != "" { tags := tags + {p.tag}; }
        if p.imageId != "" { ids := ids + {p.imageId}; }
      }
    }
    assert pins[..|pins|] == pins;
  }

  lemma UsageGrows(pins: seq<Pin>, p: Pin, harness: string, repo: string)
    ensures forall t :: Named(pins + [p], harness, repo, t) <==>
              Named(pins, harness, repo, t) || (p.harness == harness && p.repo == repo && p.tag == t && t != "")
    ensures forall id :: PinnedId(pins + [p], harness, id) <==>
              PinnedId(pins, harness, id) || (p.harness == harness && p.imageId == id && id != "")
  {
    assert p in pins + [p];
    assert forall q :: q in pins + [p] <==> q in pins || q == p;
    forall t ensures Named(pins, harness, repo, t) ==> Named(pins + [p], harness, repo, t) {
      if Named(pins, harness, repo, t) {
        var q :| q in pins && q.harness == harness && q.repo == repo && q.tag == t;
        assert q in pins + [p];
      }
    }
    forall id ensures PinnedId(pins, harness, id) ==> PinnedId(pins + [p], harness, id) {
      if PinnedId(pins, harness, id) {
        var q :| q in pins && q.harness == harness && q.imageId == id;
        assert q in pins + [p];
      }
    }
  }

  /** The image a tag names, "" when it names none. */
  method ImageTagId(images: seq<Image>, tag: Tag) returns (id: string)
    ensures Local(images, tag) ==> exists i :: 0 <= i < |images| && tag in images[i].tags && images[i].id == id
    ensures !Local(images, tag) ==> id == ""
  {
    for k := 0 to |images|
      invariant forall i | 0 <= i < k :: tag !in images[i].tags
    {
      if tag in images[k].tags { return images[k].id; }
    }
    return "";
  }

  method LocalTags(images: seq<Image>) returns (out: seq<Tag>)
    ensures forall t :: t in out <==> Local(images, t)
  {
    out := [];
    for k := 0 to |images|
      invariant forall t :: t in out <==> Local(images[..k], t)
    {
      LocalGrows(images, k);
      out := out + images[k].tags;
    }
    assert images[..|images|] == images;
  }

  lemma LocalGrows(images: seq<Image>, k: nat)
    requires k < |images|
    ensures forall t :: Local(images[..k + 1], t) <==> Local(images[..k], t) || t in images[k].tags
  {
    forall t ensures Local(images[..k + 1], t) <==> Local(images[..k], t) || t in images[k].tags {
      if Local(images[..k], t) {
        var i :| 0 <= i < k && t in images[..k][i].tags;
        assert images[..k + 1][i] == images[i];
      }
      assert images[..k + 1][k] == images[k];
    }
  }

  class Daemon {
    /** The tags of the repository the daemon holds. */
    var held: set<Tag>
    /** The tags it has refused to remove. */
    ghost var refused: set<Tag>

    method ImageRemove(tag: Tag) returns (ok: bool)
      modifies this
      ensures held == if ok then old(held) - {tag} else old(held)
      ensures refused == if ok then old(refused) else old(refused) + {tag}
    {
      ok := *;
      if ok { held := held - {tag}; } else { refused := refused + {tag}; }
    }

    ghost predicate Holds(images: seq<Image>)
      reads this
    {
      forall t :: t in held <==> Local(images, t)
    }

    /**
     Removes what no record needs.  Safe: it removes no tag a record of the harness names, no other
     name of an image such a record pins, and not the newest local date-time tag.  Complete: every
     other local tag is removed, or reported as failed because the daemon refused it.  `readable` and
     `listed` say whether the records and the daemon's images could be read.
     */
    method CleanupAgentImages(images: seq<Image>, pins: seq<Pin>, readable: bool, listed: bool, harness: string, repo: string, ghost newest: Tag)
        returns (removed: seq<Tag>, failed: set<Tag>, err: bool)
      requires Holds(images) && TagsResolve(images) && IsLocalNewest(images, newest)
      modifies this
      ensures err <==> !readable || !listed
      ensures err ==> held == old(held) && removed == [] && failed == {}
      ensures refused == old(refused) + failed
      ensures held == old(held) - (set t | t in removed)
      ensures forall t | t in removed || t in failed :: Local(images, t) && !Protected(images, pins, harness, repo, newest, t)
      ensures !err ==> forall t | Local(images, t) :: Protected(images, pins, harness, repo, newest, t) || t in removed || t in failed
      ensures SameDefault(old(held), held)
    {
      removed, failed := [], {};
      err := !readable || !listed;       // a cleanup that cannot see what is in use deletes nothing
      if err {
        KeepsDefault(held, held, newest);
        return;
      }
      var tags, ids := AgentImageUsage(pins, harness, repo);
      var local := LocalTags(images);
      var top := NewestDateTimeTag(local);
      LocalNewest(images, local, top, newest);
      for k := 0 to |local|
        invariant held == old(held) - (set t | t in removed) && refused == old(refused) + failed
        invariant forall t | t in removed || t in failed :: Local(images, t) && !Protected(images, pins, harness, repo, newest, t)
        invariant forall i | 0 <= i < k :: Protected(images, pins, harness, repo, newest, local[i]) || local[i] in removed || local[i] in failed
      {
        var tag := local[k];
        assert tag in local;
        var id := ImageTagId(images, tag);
        AliasById(images, pins, harness, tag, id);
        if tag !in tags && id !in ids && tag != top {
          var ok := ImageRemove(tag);
          if ok { removed := removed + [tag]; } else { failed := failed + {tag}; }
        }
      }
      KeepsDefault(old(held), held, newest);
    }
  }

  /** `t` is the newest date-time tag on the daemon, "" when it holds none. */
  ghost predicate IsLocalNewest(images: seq<Image>, t: Tag) {
    && (t == "" || (Local(images, t) && IsDateTimeTag(t)))
    && (forall u | Local(images, u) && IsDateTimeTag(u) :: t != "" && !Less(t, u))
  }

  ghost predicate Protected(images: seq<Image>, pins: seq<Pin>, harness: string, repo: string, newest: Tag, t: Tag) {
    Named(pins, harness, repo, t) || Alias(images, pins, harness, t) || t == newest
  }

  lemma LocalNewest(images: seq<Image>, local: seq<Tag>, top: Tag, newest: Tag)
    requires (forall t :: t in local <==> Local(images, t)) && IsNewest(local, top) && IsLocalNewest(images, newest)
    ensures top == newest
  {
    assert IsNewest(local, newest);
    NewestUnique(local, top, newest);
  }

  /** The one image a tag names decides whether the tag is an alias. */
  lemma AliasById(images: seq<Image>, pins: seq<Pin>, harness: string, tag: Tag, id: string)
    requires TagsResolve(images) && Local(images, tag)
    requires exists i :: 0 <= i < |images| && tag in images[i].tags && images[i].id == id
    ensures PinnedId(pins, harness, id) <==> Alias(images, pins, harness, tag)
  {
    var i :| 0 <= i < |images| && tag in images[i].tags && images[i].id == id;
    if Alias(images, pins, harness, tag) {
      var j :| 0 <= j < |images| && tag in images[j].tags && PinnedId(pins, harness, images[j].id);
      assert i == j;
    }
  }

  ghost predicate Lists(tags: seq<Tag>, held: set<Tag>) {
    forall t :: t in tags <==> t in held
  }

  /** Whatever the registry has published, a host with a date-time tag hands new agents the same tag before and after. */
  ghost predicate SameDefault(before: set<Tag>, after: set<Tag>) {
    forall b, a, registry, prior, next |
      Lists(b, before) && Lists(a, after) && HasDateTime(b) && IsDefault(b, registry, prior) && IsDefault(a, registry, next) :: prior == next
  }

  lemma KeepsDefault(before: set<Tag>, after: set<Tag>, newest: Tag)
    requires after <= before && (newest in before ==> newest in after)
    requires newest == "" || (newest in before && IsDateTimeTag(newest))
    requires forall u | u in before && IsDateTimeTag(u) :: newest != "" && !Less(newest, u)
    ensures SameDefault(before, after)
  {
    forall b, a, registry, prior, next |
      Lists(b, before) && Lists(a, after) && HasDateTime(b) && IsDefault(b, registry, prior) && IsDefault(a, registry, next)
      ensures prior == next
    {
      var u :| u in b && IsDateTimeTag(u);
      assert u in before;
      assert IsNewest(b, newest);
      NewestUnique(b, newest, prior);
      assert newest in a;
      assert IsDefault(a, registry, newest);
      DefaultUnique(a, registry, newest, next);
    }
  }
}

/**
  The application's handlers as they run: one store, changed key by key under one
  lock, with loops over tags, comments and votes. Each is proved to do what the
  functions of module Links say. A store operation that fails is not modelled.
 */
module LinkRepo {
  import opened Wrappers
  import opened StoreKeys
  import L = Links

  // ---- Tags of a request ----

  predicate TagChar(c: char) {
    ('a' <= c <= 'z') || ('0' <= c <= '9')
  }

  predicate ValidTag(t: string) {
    1 <= |t| <= 30 && TagChar(t[0]) && forall k | 1 <= k < |t| :: TagChar(t[k]) || t[k] == '_' || t[k] == '-'
  }

  /** The tags without repetitions, each where it comes first. */
  function Firsts(tags: seq<string>): (r: seq<string>)
    ensures L.NoDup(r) && forall t :: t in r <==> t in tags
  {
    if |tags| == 0 then []
    else
      var init, t := Firsts(tags[..|tags| - 1]), tags[|tags| - 1];
      assert tags == tags[..|tags| - 1] + [t];
      L.NoDupAdd(init, t);
      if t in tags[..|tags| - 1] then init else init + [t]
  }

  lemma FirstsStart(tags: seq<string>)
    ensures Firsts(tags[..0]) == []
  {
  }

  lemma FirstsNext(tags: seq<string>, k: nat)
    requires k < |tags|
    ensures Firsts(tags[..k + 1]) == if tags[k] in tags[..k] then Firsts(tags[..k]) else Firsts(tags[..k]) + [tags[k]]
    ensures forall t :: t in tags[..k + 1] <==> t in tags[..k] || t == tags[k]
  {
    assert tags[..k + 1][..k] == tags[..k] && tags[..k + 1] == tags[..k] + [tags[k]];
  }

  /** Every tag brought to the form in which it is checked and stored. */
  function Normalized(raw: seq<string>, normalize: string -> string): (tags: seq<string>)
    ensures |tags| == |raw| && forall k | 0 <= k < |raw| :: tags[k] == normalize(raw[k])
  {
    seq(|raw|, k requires 0 <= k < |raw| => normalize(raw[k]))
  }

  /** At most five tags, all of the permitted form once trimmed and in lower case (`normalize`); none is kept twice. */
  method AcceptTags(raw: seq<string>, normalize: string -> string) returns (tags: Option<seq<string>>)
    ensures tags.Some? <==> |raw| <= 5 && forall t | t in raw :: ValidTag(normalize(t))
    ensures tags.Some? ==> tags.value == Firsts(Normalized(raw, normalize))
  {
    hide ValidTag, Firsts;
    if |raw| > 5 {
      return None;
    }
    ghost var normal := Normalized(raw, normalize);
    FirstsStart(normal);
    var kept: seq<string>, seen: set<string>, k := [], {}, 0;
    while k < |raw|
      invariant 0 <= k <= |raw| && kept == Firsts(normal[..k]) && forall t :: t in seen <==> t in normal[..k]
      invariant forall j | 0 <= j < k :: ValidTag(normal[j])
    {
      FirstsNext(normal, k);
      var t := normalize(raw[k]);
      if !ValidTag(t) {
        assert raw[k] in raw;
        return None;
      }
      if t !in seen {
        seen := seen + {t};
        kept := kept + [t];
      }
      k := k + 1;
    }
    assert normal[..k] == normal;
    return Some(kept);
  }

  class Repo {
    var kv: L.KV

    constructor ()
      ensures kv == map[]
    {
      kv := map[];
    }

    method Incr(k: Key) returns (n: nat)
      modifies this
      ensures n == L.Counter(old(kv), k) + 1 && kv == old(kv)[k := L.CounterV(n)]
    {
      n := L.Counter(kv, k) + 1;
      kv := kv[k := L.CounterV(n)];
    }

    method PrependIndex(k: Key, id: int)
      modifies this
      ensures kv == L.Prepend(old(kv), k, id)
    {
      var ids := L.Idx(kv, k);
      kv := kv[k := L.IndexV([id] + ids)];
    }

    method AppendIndex(k: Key, id: int)
      modifies this
      ensures kv == L.Append(old(kv), k, id)
    {
      var ids := L.Idx(kv, k);
      kv := kv[k := L.IndexV(ids + [id])];
    }

    /** Goes through the list and keeps all other ids. */
    method RemoveIndex(k: Key, id: int)
      modifies this
      ensures kv == L.Remove(old(kv), k, id)
    {
      var ids := L.Idx(kv, k);
      var kept: seq<int>, i := [], 0;
      while i < |ids|
        invariant 0 <= i <= |ids| && kept == L.Removed(ids[..i], id)
      {
        assert ids[..i + 1][..i] == ids[..i];
        if ids[i] != id {
          kept := kept + [ids[i]];
        }
        i := i + 1;
      }
      assert ids[..i] == ids;
      kv := kv[k := L.IndexV(kept)];
    }

    /** Under the lock; the id was drawn before. */
    method CreateLink(link: L.Link)
      modifies this
      ensures kv == L.CreateLink(old(kv), link)
    {
      kv := kv[LinkKey(link.id) := L.LinkV(link)];
      PrependIndex(RecentLinks, link.id);
      PrependIndex(UserLinks(link.owner), link.id);
      ghost var before := kv;
      var k := 0;
      while k < |link.tags|
        invariant 0 <= k <= |link.tags| && kv == L.PrependTags(before, link.tags[..k], link.id)
      {
        assert link.tags[..k + 1][..k] == link.tags[..k];
        PrependIndex(TagLinks(link.tags[k]), link.id);
        k := k + 1;
      }
      assert link.tags[..k] == link.tags;
    }

    method RemoveTags(tags: seq<string>, id: int)
      modifies this
      ensures kv == L.RemoveTags(old(kv), tags, id)
    {
      var k := 0;
      while k < |tags|
        invariant 0 <= k <= |tags| && kv == L.RemoveTags(old(kv), tags[..k], id)
      {
        assert tags[..k + 1][..k] == tags[..k];
        RemoveIndex(TagLinks(tags[k]), id);
        k := k + 1;
      }
      assert tags[..k] == tags;
    }

    method DeleteComments(ids: seq<int>)
      modifies this
      ensures kv == old(kv) - L.CommentKeys(ids)
    {
      var k := 0;
      while k < |ids|
        invariant 0 <= k <= |ids| && kv == old(kv) - L.CommentKeys(ids[..k])
      {
        assert ids[..k + 1] == ids[..k] + [ids[k]];
        assert L.CommentKeys(ids[..k + 1]) == L.CommentKeys(ids[..k]) + {CommentKey(ids[k])};
        kv := kv - {CommentKey(ids[k])};
        k := k + 1;
      }
      assert ids[..k] == ids;
    }

    /** One after the other, in whatever order the scan lists them. */
    method DeleteKeys(keys: set<Key>)
      modifies this
      ensures kv == old(kv) - keys
    {
      var rest := keys;
      while rest != {}
        invariant rest <= keys && kv == old(kv) - (keys - rest)
        decreases |rest|
      {
        var k :| k in rest;
        rest := rest - {k};
        assert keys - rest == (keys - rest - {k}) + {k};
        kv := kv - {k};
      }
    }

    method DeleteLink(id: int, user: int) returns (reply: L.Reply<()>)
      modifies this
      ensures (kv, reply) == L.DeleteLink(old(kv), id, user)
    {
      var found := L.GetLink(kv, id);
      if found.None? {
        return L.Refused(L.NotFound);
      }
      var link := found.value;
      if link.owner != user {
        return L.Refused(L.Forbidden);
      }
      DropLink(link);
      return L.Done(());
    }

    method DropLink(link: L.Link)
      modifies this
      ensures kv == L.DropLink(old(kv), link)
    {
      RemoveIndex(RecentLinks, link.id);
      RemoveIndex(UserLinks(link.owner), link.id);
      RemoveTags(link.tags, link.id);
      ghost var a := kv;
      assert a == L.DropLists(old(kv), link);
      DeleteComments(L.Idx(kv, LinkComments(link.id)));
      kv := kv - {LinkComments(link.id)};
      assert L.VotesFor(kv, link.id) == L.VotesFor(a, link.id);
      DeleteKeys(L.VotesFor(kv, link.id));
      kv := kv - {LinkKey(link.id)};
    }

    method CreateComment(link: int, author: int, parent: Option<int>, body: string) returns (reply: L.Reply<int>)
      modifies this
      ensures (kv, reply) == L.CreateComment(old(kv), link, author, parent, body)
    {
      var found := L.GetLink(kv, link);
      if found.None? {
        return L.Refused(L.NotFound);
      }
      var l := found.value;
      if parent.Some? {
        var p := L.GetComment(kv, parent.value);
        if p.None? || p.value.link != link || p.value.parent.Some? {
          return L.Refused(L.BadRequest);
        }
      }
      var id := Incr(SeqComment);
      kv := kv[CommentKey(id) := L.CommentV(L.Comment(id, l.id, author, parent, body))];
      AppendIndex(LinkComments(l.id), id);
      kv := kv[LinkKey(l.id) := L.LinkV(l.(comments := l.comments + 1))];
      return L.Done(id);
    }

    method DeleteComment(id: int, user: int) returns (reply: L.Reply<()>)
      modifies this
      ensures (kv, reply) == L.DeleteComment(old(kv), id, user)
    {
      var found := L.GetComment(kv, id);
      if found.None? {
        return L.Refused(L.NotFound);
      }
      var c := found.value;
      if c.author != user {
        return L.Refused(L.Forbidden);
      }
      RemoveIndex(LinkComments(c.link), c.id);
      kv := kv - {CommentKey(c.id)};
      var link := L.GetLink(kv, c.link);
      if link.Some? && link.value.comments > 0 {
        kv := kv[LinkKey(c.link) := L.LinkV(link.value.(comments := link.value.comments - 1))];
      }
      return L.Done(());
    }

    method ToggleVote(link: int, user: int) returns (reply: L.Reply<(bool, int)>)
      modifies this
      ensures (kv, reply) == L.ToggleVote(old(kv), link, user)
    {
      var found := L.GetLink(kv, link);
      if found.None? {
        return L.Refused(L.NotFound);
      }
      var l := found.value;
      var voted := VoteKey(link, user) in kv;
      if voted {
        kv := kv - {VoteKey(link, user)};
        if l.votes > 0 {
          l := l.(votes := l.votes - 1);
        }
      } else {
        kv := kv[VoteKey(link, user) := L.VoteV];
        l := l.(votes := l.votes + 1);
      }
      kv := kv[LinkKey(link) := L.LinkV(l)];
      return L.Done((!voted, l.votes));
    }
  }
}

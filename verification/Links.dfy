/**
  The application's records in the key-value store and the lists of ids kept beside
  them by hand: the tag and user lists must be the recent list filtered, and the two
  counters of a link must be the number of its votes and of its comments.
 */
module Links {
  import opened Wrappers
  import opened StoreKeys

  datatype Link = Link(id: int, owner: int, tags: seq<string>, votes: int, comments: int, text: string)

  datatype Comment = Comment(id: int, link: int, author: int, parent: Option<int>, body: string)

  datatype Value = LinkV(link: Link) | CommentV(comment: Comment) | IndexV(ids: seq<int>) | VoteV | CounterV(n: nat)

  type KV = map<Key, Value>

  datatype Refusal = NotFound | Forbidden | BadRequest

  datatype Reply<+T> = Done(value: T) | Refused(why: Refusal)

  // ---- Reading ----

  function GetLink(kv: KV, id: int): Option<Link> {
    if LinkKey(id) in kv && kv[LinkKey(id)].LinkV? then Some(kv[LinkKey(id)].link) else None
  }

  function GetComment(kv: KV, id: int): Option<Comment> {
    if CommentKey(id) in kv && kv[CommentKey(id)].CommentV? then Some(kv[CommentKey(id)].comment) else None
  }

  /** A list of ids; empty if there is none. */
  function Idx(kv: KV, k: Key): seq<int> {
    if k in kv && kv[k].IndexV? then kv[k].ids else []
  }

  function Counter(kv: KV, k: Key): nat {
    if k in kv && kv[k].CounterV? then kv[k].n else 0
  }

  /** The keys a prefix scan for the link's votes finds (StoreKeys.VoteScanExact). */
  function VotesFor(kv: KV, link: int): set<Key> {
    set k | k in kv && k.VoteKey? && k.link == link
  }

  // ---- Lists ----

  predicate NoDup<T(==)>(s: seq<T>) {
    forall i, j | 0 <= i < j < |s| :: s[i] != s[j]
  }

  /** The elements that are in `keep`, in order. */
  function Select(ids: seq<int>, keep: set<int>): seq<int> {
    if |ids| == 0 then []
    else Select(ids[..|ids| - 1], keep) + if ids[|ids| - 1] in keep then [ids[|ids| - 1]] else []
  }

  /** All but `id`, in order. */
  function Removed(ids: seq<int>, id: int): seq<int> {
    if |ids| == 0 then []
    else Removed(ids[..|ids| - 1], id) + if ids[|ids| - 1] != id then [ids[|ids| - 1]] else []
  }

  lemma {:induction false} SelectAgrees(ids: seq<int>, a: set<int>, b: set<int>)
    requires forall x | x in ids :: x in a <==> x in b
    ensures Select(ids, a) == Select(ids, b)
  {
    if |ids| > 0 {
      var init, x := ids[..|ids| - 1], ids[|ids| - 1];
      assert x in ids && forall y | y in init :: y in ids;
      SelectAgrees(init, a, b);
      assert Select(ids, b) == Select(init, b) + if x in b then [x] else [];
    }
  }

  lemma {:induction false} SelectPrepend(id: int, ids: seq<int>, keep: set<int>)
    ensures Select([id] + ids, keep) == (if id in keep then [id] else []) + Select(ids, keep)
  {
    if |ids| == 0 {
      assert ([id] + ids)[..0] == [];
      assert [id] + ids == [id];
    } else {
      SelectPrepend(id, ids[..|ids| - 1], keep);
      assert ([id] + ids)[..|ids|] == [id] + ids[..|ids| - 1];
    }
  }

  lemma {:induction false} SelectMembers(ids: seq<int>, keep: set<int>)
    ensures forall x :: x in Select(ids, keep) <==> x in ids && x in keep
  {
    if |ids| > 0 {
      SelectMembers(ids[..|ids| - 1], keep);
      assert ids == ids[..|ids| - 1] + [ids[|ids| - 1]];
    }
  }

  lemma {:induction false} RemovedMembers(ids: seq<int>, id: int)
    ensures forall x :: x in Removed(ids, id) <==> x in ids && x != id
  {
    if |ids| > 0 {
      RemovedMembers(ids[..|ids| - 1], id);
      assert ids == ids[..|ids| - 1] + [ids[|ids| - 1]];
    }
  }

  lemma {:induction false} RemovedNothing(ids: seq<int>, id: int)
    requires id !in ids
    ensures Removed(ids, id) == ids
  {
    if |ids| > 0 {
      RemovedNothing(ids[..|ids| - 1], id);
    }
  }

  lemma RemovedAdd(ids: seq<int>, x: int, id: int)
    ensures Removed(ids + [x], id) == Removed(ids, id) + if x != id then [x] else []
  {
  }

  /** Filtering and removing commute. */
  lemma {:induction false} SelectRemoved(ids: seq<int>, keep: set<int>, id: int)
    ensures Select(Removed(ids, id), keep) == Removed(Select(ids, keep), id)
  {
    if |ids| > 0 {
      var init, x := ids[..|ids| - 1], ids[|ids| - 1];
      SelectRemoved(init, keep, id);
      if x != id {
        assert (Removed(init, id) + [x])[..|Removed(init, id)|] == Removed(init, id);
      } else {
        assert Removed(init, id) + [] == Removed(init, id);
      }
      if x in keep {
        RemovedAdd(Select(init, keep), x, id);
      } else {
        assert Select(init, keep) + [] == Select(init, keep);
      }
    }
  }

  lemma NoDupAdd<T>(s: seq<T>, x: T)
    ensures NoDup(s + [x]) <==> NoDup(s) && x !in s
  {
    var t := s + [x];
    assert forall i | 0 <= i < |s| :: t[i] == s[i];
    assert t[|s|] == x;
  }

  lemma {:induction false} RemovedNoDup(ids: seq<int>, id: int)
    requires NoDup(ids)
    ensures NoDup(Removed(ids, id)) && |Removed(ids, id)| == if id in ids then |ids| - 1 else |ids|
  {
    hide NoDup;
    if |ids| > 0 {
      var init, x := ids[..|ids| - 1], ids[|ids| - 1];
      assert ids == init + [x];
      NoDupAdd(init, x);
      RemovedNoDup(init, id);
      RemovedMembers(init, id);
      NoDupAdd(Removed(init, id), x);
      assert Removed(init, id) + [] == Removed(init, id);
    }
  }

  // ---- Updating lists ----

  function Prepend(kv: KV, k: Key, id: int): KV {
    kv[k := IndexV([id] + Idx(kv, k))]
  }

  function Append(kv: KV, k: Key, id: int): KV {
    kv[k := IndexV(Idx(kv, k) + [id])]
  }

  function Remove(kv: KV, k: Key, id: int): KV {
    kv[k := IndexV(Removed(Idx(kv, k), id))]
  }

  function PrependTags(kv: KV, tags: seq<string>, id: int): KV {
    if |tags| == 0 then kv
    else Prepend(PrependTags(kv, tags[..|tags| - 1], id), TagLinks(tags[|tags| - 1]), id)
  }

  function RemoveTags(kv: KV, tags: seq<string>, id: int): KV {
    if |tags| == 0 then kv
    else Remove(RemoveTags(kv, tags[..|tags| - 1], id), TagLinks(tags[|tags| - 1]), id)
  }

  /** Only tag lists differ. */
  ghost predicate SameButTags(a: KV, b: KV) {
    forall k: Key | !k.TagLinks? :: (k in a <==> k in b) && (k in a ==> a[k] == b[k])
  }

  lemma {:induction false} PrependTagsLists(kv: KV, tags: seq<string>, id: int)
    requires NoDup(tags)
    ensures SameButTags(kv, PrependTags(kv, tags, id))
    ensures forall t :: Idx(PrependTags(kv, tags, id), TagLinks(t)) ==
                        if t in tags then [id] + Idx(kv, TagLinks(t)) else Idx(kv, TagLinks(t))
  {
    if |tags| > 0 {
      var init := tags[..|tags| - 1];
      assert NoDup(init);
      PrependTagsLists(kv, init, id);
      assert tags == init + [tags[|tags| - 1]];
      assert tags[|tags| - 1] !in init;
    }
  }

  lemma {:induction false} RemoveTagsLists(kv: KV, tags: seq<string>, id: int)
    requires NoDup(tags)
    ensures SameButTags(kv, RemoveTags(kv, tags, id))
    ensures forall t :: Idx(RemoveTags(kv, tags, id), TagLinks(t)) ==
                        if t in tags then Removed(Idx(kv, TagLinks(t)), id) else Idx(kv, TagLinks(t))
  {
    if |tags| > 0 {
      var init := tags[..|tags| - 1];
      assert NoDup(init);
      RemoveTagsLists(kv, init, id);
      assert tags == init + [tags[|tags| - 1]];
      assert tags[|tags| - 1] !in init;
    }
  }

  // ---- The operations ----

  /** A link with a fresh id, and its id at the head of every list it belongs to. */
  function CreateLink(kv: KV, link: Link): KV {
    var a := kv[LinkKey(link.id) := LinkV(link)];
    PrependTags(Prepend(Prepend(a, RecentLinks, link.id), UserLinks(link.owner), link.id), link.tags, link.id)
  }

  function CommentKeys(ids: seq<int>): set<Key> {
    set x | x in ids :: CommentKey(x)
  }

  /** The link's id goes from every list it is in. */
  function DropLists(kv: KV, link: Link): KV {
    RemoveTags(Remove(Remove(kv, RecentLinks, link.id), UserLinks(link.owner), link.id), link.tags, link.id)
  }

  /** The link goes, and with it its place in every list, its comments and its votes. */
  function DropLink(kv: KV, link: Link): KV {
    var a, id := DropLists(kv, link), link.id;
    a - CommentKeys(Idx(a, LinkComments(id))) - {LinkComments(id)} - VotesFor(a, id) - {LinkKey(id)}
  }

  function DeleteLink(kv: KV, id: int, user: int): (KV, Reply<()>) {
    match GetLink(kv, id)
    case None => (kv, Refused(NotFound))
    case Some(link) => if link.owner != user then (kv, Refused(Forbidden)) else (DropLink(kv, link), Done(()))
  }

  /** May a comment on `link` reply to `parent`? Replies go one level deep. */
  predicate MayReply(kv: KV, link: int, parent: Option<int>) {
    parent.Some? ==>
      var p := GetComment(kv, parent.value);
      p.Some? && p.value.link == link && p.value.parent.None?
  }

  function AddComment(kv: KV, link: Link, author: int, parent: Option<int>, body: string): KV {
    var id := Counter(kv, SeqComment) + 1;
    var a := kv[SeqComment := CounterV(id)][CommentKey(id) := CommentV(Comment(id, link.id, author, parent, body))];
    Append(a, LinkComments(link.id), id)[LinkKey(link.id) := LinkV(link.(comments := link.comments + 1))]
  }

  function CreateComment(kv: KV, link: int, author: int, parent: Option<int>, body: string): (KV, Reply<int>) {
    match GetLink(kv, link)
    case None => (kv, Refused(NotFound))
    case Some(l) =>
      if !MayReply(kv, link, parent) then (kv, Refused(BadRequest))
      else (AddComment(kv, l, author, parent, body), Done(Counter(kv, SeqComment) + 1))
  }

  function DropComment(kv: KV, c: Comment): KV {
    var a := Remove(kv, LinkComments(c.link), c.id) - {CommentKey(c.id)};
    match GetLink(a, c.link)
    case Some(l) => if l.comments > 0 then a[LinkKey(c.link) := LinkV(l.(comments := l.comments - 1))] else a
    case None => a
  }

  function DeleteComment(kv: KV, id: int, user: int): (KV, Reply<()>) {
    match GetComment(kv, id)
    case None => (kv, Refused(NotFound))
    case Some(c) => if c.author != user then (kv, Refused(Forbidden)) else (DropComment(kv, c), Done(()))
  }

  /** A vote is cast, or taken back; the reply says which, and the new count. */
  function ToggleVote(kv: KV, link: int, user: int): (KV, Reply<(bool, int)>) {
    match GetLink(kv, link)
    case None => (kv, Refused(NotFound))
    case Some(l) =>
      var voted := VoteKey(link, user) in kv;
      var votes := if !voted then l.votes + 1 else if l.votes > 0 then l.votes - 1 else l.votes;
      var a := if voted then kv - {VoteKey(link, user)} else kv[VoteKey(link, user) := VoteV];
      (a[LinkKey(link) := LinkV(l.(votes := votes))], Done((!voted, votes)))
  }

  // ---- What must agree ----

  function Tagged(kv: KV, t: string): set<int> {
    set k | k in kv && k.LinkKey? && kv[k].LinkV? && t in kv[k].link.tags :: k.link
  }

  function Owned(kv: KV, u: int): set<int> {
    set k | k in kv && k.LinkKey? && kv[k].LinkV? && kv[k].link.owner == u :: k.link
  }

  ghost predicate Records(kv: KV) {
    && (forall id: int | LinkKey(id) in kv ::
          kv[LinkKey(id)].LinkV? && kv[LinkKey(id)].link.id == id && NoDup(kv[LinkKey(id)].link.tags)
          && id <= Counter(kv, SeqLink))
    && (forall id: int | CommentKey(id) in kv ::
          kv[CommentKey(id)].CommentV? && kv[CommentKey(id)].comment.id == id && id <= Counter(kv, SeqComment))
  }

  ghost predicate RecentOk(kv: KV) {
    NoDup(Idx(kv, RecentLinks)) && forall id: int :: id in Idx(kv, RecentLinks) <==> LinkKey(id) in kv
  }

  /** Each tag list is the recent list filtered by the tag, each user list filtered by the owner. */
  ghost predicate ListsOk(kv: KV) {
    && (forall t: string :: Idx(kv, TagLinks(t)) == Select(Idx(kv, RecentLinks), Tagged(kv, t)))
    && (forall u: int :: Idx(kv, UserLinks(u)) == Select(Idx(kv, RecentLinks), Owned(kv, u)))
  }

  ghost predicate VotesOk(kv: KV) {
    && (forall l: int | LinkKey(l) in kv && kv[LinkKey(l)].LinkV? :: kv[LinkKey(l)].link.votes == |VotesFor(kv, l)|)
    && (forall l: int, u: int | VoteKey(l, u) in kv :: LinkKey(l) in kv)
  }

  /** A link's comment list names exactly the comments on it, each once, and the link counts them. */
  ghost predicate CommentsOk(kv: KV) {
    forall l: int, c: int :: CommentRow(kv, l, c)
  }

  ghost predicate CommentRow(kv: KV, l: int, c: int) {
    && (c in Idx(kv, LinkComments(l)) <==> OnLink(kv, l, c))
    && NoDup(Idx(kv, LinkComments(l)))
    && (LinkKey(l) in kv && kv[LinkKey(l)].LinkV? ==> kv[LinkKey(l)].link.comments == |Idx(kv, LinkComments(l))|)
    && (CommentKey(c) in kv && kv[CommentKey(c)].CommentV? ==> LinkKey(kv[CommentKey(c)].comment.link) in kv)
  }

  predicate OnLink(kv: KV, l: int, c: int) {
    CommentKey(c) in kv && kv[CommentKey(c)].CommentV? && kv[CommentKey(c)].comment.link == l
  }

  ghost predicate Agrees(kv: KV) {
    Records(kv) && RecentOk(kv) && ListsOk(kv) && VotesOk(kv) && CommentsOk(kv)
  }

  // ---- Creating a link ----

  lemma CreateLooks(kv: KV, link: Link)
    requires NoDup(link.tags)
    ensures var b, id := CreateLink(kv, link), link.id;
            && Idx(b, RecentLinks) == [id] + Idx(kv, RecentLinks)
            && (forall u :: Idx(b, UserLinks(u)) == if u == link.owner then [id] + Idx(kv, UserLinks(u)) else Idx(kv, UserLinks(u)))
            && (forall t :: Idx(b, TagLinks(t)) == if t in link.tags then [id] + Idx(kv, TagLinks(t)) else Idx(kv, TagLinks(t)))
            && LinkKey(id) in b && b[LinkKey(id)] == LinkV(link)
            && Elsewhere(kv, b, {LinkKey(id), RecentLinks, UserLinks(link.owner)})
  {
    hide NoDup, PrependTags;
    var a := kv[LinkKey(link.id) := LinkV(link)];
    var c := Prepend(Prepend(a, RecentLinks, link.id), UserLinks(link.owner), link.id);
    PrependTagsLists(c, link.tags, link.id);
  }

  /** Away from `touched` and the tag lists, nothing differs. */
  ghost predicate Elsewhere(a: KV, b: KV, touched: set<Key>) {
    forall k: Key | k !in touched && !k.TagLinks? :: (k in a <==> k in b) && (k in a ==> a[k] == b[k])
  }

  lemma CreateKeepsLists(kv: KV, link: Link)
    requires Records(kv) && RecentOk(kv) && ListsOk(kv) && LinkKey(link.id) !in kv && NoDup(link.tags)
    ensures RecentOk(CreateLink(kv, link)) && ListsOk(CreateLink(kv, link))
  {
    hide NoDup, CreateLink, ListsOk, Records, Select, Elsewhere;
    var b, id, recent := CreateLink(kv, link), link.id, Idx(kv, RecentLinks);
    CreateLooks(kv, link);
    assert id !in recent;
    NoDupPrepend(id, recent);
    CreateKeepsRecent(kv, b, link);
    forall t: string
      ensures Idx(b, TagLinks(t)) == Select(Idx(b, RecentLinks), Tagged(b, t))
    {
      CreateKeepsTag(kv, b, link, t);
    }
    forall u: int
      ensures Idx(b, UserLinks(u)) == Select(Idx(b, RecentLinks), Owned(b, u))
    {
      CreateKeepsUser(kv, b, link, u);
    }
    ListsFrom(b);
  }

  /** Where a created link differs: its record, and its id at the head of the recent list. */
  ghost predicate Created(a: KV, b: KV, link: Link) {
    && LinkKey(link.id) in b && b[LinkKey(link.id)] == LinkV(link) && Idx(b, RecentLinks) == [link.id] + Idx(a, RecentLinks)
    && Elsewhere(a, b, {LinkKey(link.id), RecentLinks, UserLinks(link.owner)})
  }

  lemma CreateKeepsRecent(a: KV, b: KV, link: Link)
    requires RecentOk(a) && Created(a, b, link) && NoDup([link.id] + Idx(a, RecentLinks))
    ensures RecentOk(b)
  {
    hide NoDup;
  }

  lemma CreateKeepsTag(a: KV, b: KV, link: Link, t: string)
    requires ListsOk(a) && Created(a, b, link) && link.id !in Idx(a, RecentLinks)
    requires Idx(b, TagLinks(t)) == if t in link.tags then [link.id] + Idx(a, TagLinks(t)) else Idx(a, TagLinks(t))
    ensures Idx(b, TagLinks(t)) == Select(Idx(b, RecentLinks), Tagged(b, t))
  {
    hide Select, Tagged, Owned, Elsewhere;
    var recent := Idx(a, RecentLinks);
    SelectPrepend(link.id, recent, Tagged(b, t));
    CreatedSets(a, b, link, t, 0);
    SelectAgrees(recent, Tagged(a, t), Tagged(b, t));
    assert Idx(a, TagLinks(t)) == Select(recent, Tagged(a, t));
    assert [] + Idx(a, TagLinks(t)) == Idx(a, TagLinks(t));
  }

  lemma CreateKeepsUser(a: KV, b: KV, link: Link, u: int)
    requires ListsOk(a) && Created(a, b, link) && link.id !in Idx(a, RecentLinks)
    requires Idx(b, UserLinks(u)) == if u == link.owner then [link.id] + Idx(a, UserLinks(u)) else Idx(a, UserLinks(u))
    ensures Idx(b, UserLinks(u)) == Select(Idx(b, RecentLinks), Owned(b, u))
  {
    hide Select, Tagged, Owned, Elsewhere;
    var recent := Idx(a, RecentLinks);
    SelectPrepend(link.id, recent, Owned(b, u));
    CreatedSets(a, b, link, "", u);
    SelectAgrees(recent, Owned(a, u), Owned(b, u));
    assert Idx(a, UserLinks(u)) == Select(recent, Owned(a, u));
    assert [] + Idx(a, UserLinks(u)) == Idx(a, UserLinks(u));
  }

  lemma NoDupPrepend(id: int, ids: seq<int>)
    requires NoDup(ids) && id !in ids
    ensures NoDup([id] + ids)
  {
  }

  lemma CreatedSets(a: KV, b: KV, link: Link, t: string, u: int)
    requires LinkKey(link.id) in b && b[LinkKey(link.id)] == LinkV(link)
    requires Elsewhere(a, b, {LinkKey(link.id), RecentLinks, UserLinks(link.owner)})
    ensures forall x | x != link.id :: (x in Tagged(a, t) <==> x in Tagged(b, t)) && (x in Owned(a, u) <==> x in Owned(b, u))
    ensures link.id in Tagged(b, t) <==> t in link.tags
    ensures link.id in Owned(b, u) <==> u == link.owner
  {
  }

  lemma InTagged(kv: KV, t: string)
    ensures forall x :: x in Tagged(kv, t) <==> LinkKey(x) in kv && kv[LinkKey(x)].LinkV? && t in kv[LinkKey(x)].link.tags
  {
  }

  lemma InOwned(kv: KV, u: int)
    ensures forall x :: x in Owned(kv, u) <==> LinkKey(x) in kv && kv[LinkKey(x)].LinkV? && kv[LinkKey(x)].link.owner == u
  {
  }

  lemma VotesSame(a: KV, b: KV, l: int)
    requires forall u: int :: VoteKey(l, u) in a <==> VoteKey(l, u) in b
    ensures VotesFor(a, l) == VotesFor(b, l)
  {
  }

  lemma NoVotes(kv: KV, l: int)
    requires forall u: int :: VoteKey(l, u) !in kv
    ensures VotesFor(kv, l) == {}
  {
  }

  lemma CreateKeepsVotes(kv: KV, b: KV, link: Link)
    requires VotesOk(kv) && LinkKey(link.id) !in kv && link.votes == 0
    requires Elsewhere(kv, b, {LinkKey(link.id), RecentLinks, UserLinks(link.owner)}) && LinkKey(link.id) in b && b[LinkKey(link.id)] == LinkV(link)
    ensures VotesOk(b)
  {
    hide VotesFor;
    NoVotes(kv, link.id);
    forall l: int
      ensures VotesFor(b, l) == VotesFor(kv, l)
    {
      VotesSame(kv, b, l);
    }
  }

  lemma CreateKeepsComments(kv: KV, b: KV, link: Link)
    requires CommentsOk(kv) && LinkKey(link.id) !in kv && link.comments == 0
    requires Elsewhere(kv, b, {LinkKey(link.id), RecentLinks, UserLinks(link.owner)}) && LinkKey(link.id) in b && b[LinkKey(link.id)] == LinkV(link)
    ensures CommentsOk(b)
  {
    hide NoDup;
    NoComments(kv, link.id);
    forall l: int, c: int
      ensures CommentRow(b, l, c)
    {
      assert CommentRow(kv, l, c);
    }
  }

  lemma NoComments(kv: KV, l: int)
    requires CommentsOk(kv) && LinkKey(l) !in kv
    ensures Idx(kv, LinkComments(l)) == []
  {
    hide NoDup;
    forall c: int
      ensures c !in Idx(kv, LinkComments(l))
    {
      assert CommentRow(kv, l, c);
    }
    NoneIn(Idx(kv, LinkComments(l)));
  }

  lemma NoneIn(ids: seq<int>)
    requires forall c: int :: c !in ids
    ensures ids == []
  {
    var c := if |ids| > 0 then ids[0] else 0;
    assert |ids| > 0 ==> c in ids;
  }

  lemma CreateKeepsRecords(kv: KV, b: KV, link: Link)
    requires Records(kv) && LinkKey(link.id) !in kv && NoDup(link.tags) && link.id <= Counter(kv, SeqLink)
    requires Elsewhere(kv, b, {LinkKey(link.id), RecentLinks, UserLinks(link.owner)}) && LinkKey(link.id) in b && b[LinkKey(link.id)] == LinkV(link)
    ensures Records(b)
  {
  }

  // ---- Deleting a link ----

  lemma DropListsLooks(kv: KV, link: Link)
    requires NoDup(link.tags)
    ensures var a, id := DropLists(kv, link), link.id;
            && Idx(a, RecentLinks) == Removed(Idx(kv, RecentLinks), id)
            && (forall u :: Idx(a, UserLinks(u)) == if u == link.owner then Removed(Idx(kv, UserLinks(u)), id) else Idx(kv, UserLinks(u)))
            && (forall t :: Idx(a, TagLinks(t)) == if t in link.tags then Removed(Idx(kv, TagLinks(t)), id) else Idx(kv, TagLinks(t)))
            && Elsewhere(kv, a, {RecentLinks, UserLinks(link.owner)})
  {
    hide NoDup, RemoveTags, Removed;
    var c := Remove(Remove(kv, RecentLinks, link.id), UserLinks(link.owner), link.id);
    RemoveTagsLists(c, link.tags, link.id);
  }

  /** What is left of the lists and records when a link's comments, votes and own record are taken away. */
  lemma CutLooks(a: KV, id: int)
    ensures var cut := CommentKeys(Idx(a, LinkComments(id))) + {LinkComments(id)} + VotesFor(a, id) + {LinkKey(id)};
            var b := a - CommentKeys(Idx(a, LinkComments(id))) - {LinkComments(id)} - VotesFor(a, id) - {LinkKey(id)};
            && b == a - cut
            && (forall k: Key | k !in cut :: (k in a <==> k in b) && (k in a ==> a[k] == b[k]) && Idx(b, k) == Idx(a, k))
            && (forall k: Key | k in cut :: k !in b)
  {
  }

  lemma CutKeys(a: KV, id: int, k: Key)
    ensures var cut := CommentKeys(Idx(a, LinkComments(id))) + {LinkComments(id)} + VotesFor(a, id) + {LinkKey(id)};
            k in cut <==> (k.CommentKey? && k.comment in Idx(a, LinkComments(id))) || k == LinkComments(id) || k == LinkKey(id)
                          || (k.VoteKey? && k.link == id && k in a)
  {
  }

  /** Which keys differ after a link is dropped. */
  predicate Cut(kv: KV, id: int, k: Key) {
    || (k.CommentKey? && k.comment in Idx(kv, LinkComments(id))) || k == LinkComments(id) || k == LinkKey(id)
    || (k.VoteKey? && k.link == id)
  }

  lemma DropLooks(kv: KV, link: Link)
    requires NoDup(link.tags)
    ensures var b, id := DropLink(kv, link), link.id;
            && Idx(b, RecentLinks) == Removed(Idx(kv, RecentLinks), id)
            && (forall u :: Idx(b, UserLinks(u)) == if u == link.owner then Removed(Idx(kv, UserLinks(u)), id) else Idx(kv, UserLinks(u)))
            && (forall t :: Idx(b, TagLinks(t)) == if t in link.tags then Removed(Idx(kv, TagLinks(t)), id) else Idx(kv, TagLinks(t)))
            && (forall k: Key | Cut(kv, id, k) :: k !in b)
            && (forall k: Key | !Cut(kv, id, k) && !k.RecentLinks? && !k.UserLinks? && !k.TagLinks? ::
                  (k in kv <==> k in b) && (k in kv ==> kv[k] == b[k]))
  {
    hide NoDup, Removed, DropLists, VotesFor, CommentKeys;
    var a, b, id := DropLists(kv, link), DropLink(kv, link), link.id;
    DropListsLooks(kv, link);
    assert Idx(a, LinkComments(id)) == Idx(kv, LinkComments(id));
    CutLooks(a, id);
    forall k: Key
      ensures Cut(kv, id, k) ==> k !in b
      ensures !Cut(kv, id, k) ==> (k in a <==> k in b) && (k in a ==> a[k] == b[k]) && Idx(b, k) == Idx(a, k)
    {
      CutKeys(a, id, k);
    }
  }

  lemma DropKeepsLists(kv: KV, link: Link)
    requires Records(kv) && RecentOk(kv) && ListsOk(kv) && GetLink(kv, link.id) == Some(link)
    ensures RecentOk(DropLink(kv, link)) && ListsOk(DropLink(kv, link))
  {
    hide NoDup, DropLink, ListsOk, Removed, Select;
    var b, id, recent := DropLink(kv, link), link.id, Idx(kv, RecentLinks);
    assert NoDup(link.tags);
    DropLooks(kv, link);
    RemovedMembers(recent, id);
    RemovedNoDup(recent, id);
    assert RecentOk(b);
    forall t: string
      ensures Idx(b, TagLinks(t)) == Select(Idx(b, RecentLinks), Tagged(b, t))
    {
      DropKeepsTag(kv, b, link, t);
    }
    forall u: int
      ensures Idx(b, UserLinks(u)) == Select(Idx(b, RecentLinks), Owned(b, u))
    {
      DropKeepsUser(kv, b, link, u);
    }
    ListsFrom(b);
  }

  lemma ListsFrom(kv: KV)
    requires forall t: string :: Idx(kv, TagLinks(t)) == Select(Idx(kv, RecentLinks), Tagged(kv, t))
    requires forall u: int :: Idx(kv, UserLinks(u)) == Select(Idx(kv, RecentLinks), Owned(kv, u))
    ensures ListsOk(kv)
  {
  }

  /** Away from a dropped link's own keys and the lists, nothing differs. */
  ghost predicate Dropped(a: KV, b: KV, id: int) {
    && (forall k: Key | Cut(a, id, k) :: k !in b)
    && (forall k: Key | !Cut(a, id, k) && !k.RecentLinks? && !k.UserLinks? && !k.TagLinks? ::
          (k in a <==> k in b) && (k in a ==> a[k] == b[k]))
  }

  lemma DropKeepsTag(a: KV, b: KV, link: Link, t: string)
    requires ListsOk(a) && GetLink(a, link.id) == Some(link) && Dropped(a, b, link.id)
    requires Idx(b, RecentLinks) == Removed(Idx(a, RecentLinks), link.id)
    requires Idx(b, TagLinks(t)) == if t in link.tags then Removed(Idx(a, TagLinks(t)), link.id) else Idx(a, TagLinks(t))
    ensures Idx(b, TagLinks(t)) == Select(Idx(b, RecentLinks), Tagged(b, t))
  {
    hide Removed, Select, Tagged, Owned;
    var id, recent := link.id, Idx(a, RecentLinks);
    assert Idx(a, TagLinks(t)) == Select(recent, Tagged(a, t));
    DroppedSets(a, b, link, t, 0);
    RemovedMembers(recent, id);
    SelectAgrees(Removed(recent, id), Tagged(a, t), Tagged(b, t));
    SelectRemoved(recent, Tagged(a, t), id);
    SelectMembers(recent, Tagged(a, t));
    if t !in link.tags { RemovedNothing(Idx(a, TagLinks(t)), id); }
  }

  lemma DropKeepsUser(a: KV, b: KV, link: Link, u: int)
    requires ListsOk(a) && GetLink(a, link.id) == Some(link) && Dropped(a, b, link.id)
    requires Idx(b, RecentLinks) == Removed(Idx(a, RecentLinks), link.id)
    requires Idx(b, UserLinks(u)) == if u == link.owner then Removed(Idx(a, UserLinks(u)), link.id) else Idx(a, UserLinks(u))
    ensures Idx(b, UserLinks(u)) == Select(Idx(b, RecentLinks), Owned(b, u))
  {
    hide Removed, Select, Tagged, Owned;
    var id, recent := link.id, Idx(a, RecentLinks);
    assert Idx(a, UserLinks(u)) == Select(recent, Owned(a, u));
    DroppedSets(a, b, link, "", u);
    RemovedMembers(recent, id);
    SelectAgrees(Removed(recent, id), Owned(a, u), Owned(b, u));
    SelectRemoved(recent, Owned(a, u), id);
    SelectMembers(recent, Owned(a, u));
    if u != link.owner { RemovedNothing(Idx(a, UserLinks(u)), id); }
  }

  lemma DroppedSets(a: KV, b: KV, link: Link, t: string, u: int)
    requires GetLink(a, link.id) == Some(link) && Dropped(a, b, link.id)
    ensures forall x | x != link.id :: (x in Tagged(a, t) <==> x in Tagged(b, t)) && (x in Owned(a, u) <==> x in Owned(b, u))
    ensures link.id in Tagged(a, t) <==> t in link.tags
    ensures link.id in Owned(a, u) <==> u == link.owner
  {
  }

  lemma DropKeepsVotes(kv: KV, b: KV, id: int)
    requires VotesOk(kv) && Dropped(kv, b, id)
    ensures VotesOk(b)
  {
    hide VotesFor;
    forall l: int | l != id
      ensures VotesFor(b, l) == VotesFor(kv, l)
    {
      VotesSame(kv, b, l);
    }
    assert Cut(kv, id, LinkKey(id));
    forall u: int
      ensures VoteKey(id, u) !in b
    {
      assert Cut(kv, id, VoteKey(id, u));
    }
  }

  lemma DropComments(kv: KV, b: KV, id: int, l: int, c: int)
    requires CommentRow(kv, l, c) && CommentRow(kv, id, c) && Dropped(kv, b, id)
    ensures CommentRow(b, l, c)
  {
    NoDupEmpty();
    assert Cut(kv, id, LinkComments(l)) <==> l == id;
    assert Cut(kv, id, LinkKey(l)) <==> l == id;
    assert Cut(kv, id, CommentKey(c)) <==> OnLink(kv, id, c);
    if CommentKey(c) in b && b[CommentKey(c)].CommentV? {
      assert b[CommentKey(c)] == kv[CommentKey(c)];
      assert Cut(kv, id, LinkKey(b[CommentKey(c)].comment.link)) <==> OnLink(kv, id, c);
    }
  }

  lemma DropKeepsComments(kv: KV, b: KV, id: int)
    requires CommentsOk(kv) && Dropped(kv, b, id)
    ensures CommentsOk(b)
  {
    hide CommentRow, Dropped;
    forall l: int, c: int
      ensures CommentRow(b, l, c)
    {
      assert CommentRow(kv, l, c) && CommentRow(kv, id, c);
      DropComments(kv, b, id, l, c);
    }
  }

  lemma DropKeepsRecords(kv: KV, b: KV, id: int)
    requires Records(kv) && Dropped(kv, b, id)
    ensures Records(b)
  {
    hide NoDup;
  }

  lemma NoDupEmpty()
    ensures NoDup<int>([])
  {
  }

  lemma DeleteKeeps(kv: KV, id: int, user: int)
    requires Agrees(kv)
    ensures Agrees(DeleteLink(kv, id, user).0)
  {
    hide RecentOk, ListsOk, VotesOk, CommentsOk, DropLink, NoDup;
    match GetLink(kv, id)
    case None =>
    case Some(link) =>
      DropLooks(kv, link);
      DropKeepsLists(kv, link);
      DropKeepsVotes(kv, DropLink(kv, link), id);
      DropKeepsComments(kv, DropLink(kv, link), id);
      DropKeepsRecords(kv, DropLink(kv, link), id);
  }

  lemma CreateKeeps(kv: KV, link: Link)
    requires Agrees(kv) && LinkKey(link.id) !in kv && NoDup(link.tags) && link.votes == 0 && link.comments == 0
    requires link.id <= Counter(kv, SeqLink)
    ensures Agrees(CreateLink(kv, link))
  {
    hide RecentOk, ListsOk, VotesOk, CommentsOk, Records, CreateLink, NoDup;
    CreateLooks(kv, link);
    CreateKeepsLists(kv, link);
    CreateKeepsVotes(kv, CreateLink(kv, link), link);
    CreateKeepsComments(kv, CreateLink(kv, link), link);
    CreateKeepsRecords(kv, CreateLink(kv, link), link);
  }

  // ---- Comments ----

  lemma AddCommentRow(kv: KV, link: Link, author: int, parent: Option<int>, body: string, l: int, c: int)
    requires Records(kv) && GetLink(kv, link.id) == Some(link)
    requires CommentRow(kv, l, c) && CommentRow(kv, l, Counter(kv, SeqComment) + 1)
    ensures CommentRow(AddComment(kv, link, author, parent, body), l, c)
  {
  }

  lemma AddKeepsComments(kv: KV, link: Link, author: int, parent: Option<int>, body: string)
    requires Records(kv) && CommentsOk(kv) && GetLink(kv, link.id) == Some(link)
    ensures CommentsOk(AddComment(kv, link, author, parent, body))
  {
    hide AddComment, Records, CommentRow;
    forall l: int, c: int
      ensures CommentRow(AddComment(kv, link, author, parent, body), l, c)
    {
      assert CommentRow(kv, l, c) && CommentRow(kv, l, Counter(kv, SeqComment) + 1);
      AddCommentRow(kv, link, author, parent, body, l, c);
    }
  }

  lemma AgreesParts(kv: KV)
    requires Agrees(kv)
    ensures Records(kv) && RecentOk(kv) && ListsOk(kv) && VotesOk(kv) && CommentsOk(kv)
  {
  }

  /** A change of a link's counters, comments and votes leaves the lists as they are. */
  ghost predicate CountersOnly(a: KV, b: KV) {
    && (forall k: Key | k.RecentLinks? || k.TagLinks? || k.UserLinks? :: Idx(b, k) == Idx(a, k))
    && (forall l: int :: LinkKey(l) in a <==> LinkKey(l) in b)
    && (forall l: int | LinkKey(l) in a && a[LinkKey(l)].LinkV? ::
          b[LinkKey(l)].LinkV? && b[LinkKey(l)].link.tags == a[LinkKey(l)].link.tags && b[LinkKey(l)].link.owner == a[LinkKey(l)].link.owner
          && b[LinkKey(l)].link.id == a[LinkKey(l)].link.id)
  }

  lemma CountersKeepLists(a: KV, b: KV)
    requires CountersOnly(a, b) && Records(a) && RecentOk(a) && ListsOk(a)
    ensures RecentOk(b) && ListsOk(b)
  {
    hide NoDup, Select;
    forall t: string
      ensures Tagged(b, t) == Tagged(a, t)
    {
      InTagged(a, t);
      InTagged(b, t);
    }
    forall u: int
      ensures Owned(b, u) == Owned(a, u)
    {
      InOwned(a, u);
      InOwned(b, u);
    }
  }

  lemma CommentKeeps(kv: KV, link: int, author: int, parent: Option<int>, body: string)
    requires Agrees(kv)
    ensures Agrees(CreateComment(kv, link, author, parent, body).0)
  {
    hide RecentOk, ListsOk, CommentsOk, NoDup, VotesOk, MayReply, Agrees, AddComment;
    match GetLink(kv, link)
    case None =>
    case Some(l) =>
      AgreesParts(kv);
      LinkId(kv, link);
      AddKeepsComments(kv, l, author, parent, body);
      AddKeepsRest(kv, l, author, parent, body);
      CountersKeepLists(kv, AddComment(kv, l, author, parent, body));
      AgreesFrom(AddComment(kv, l, author, parent, body));
  }

  lemma LinkId(kv: KV, id: int)
    requires Records(kv)
    ensures GetLink(kv, id).Some? ==> GetLink(kv, id).value.id == id
  {
  }

  lemma AgreesFrom(kv: KV)
    requires Records(kv) && RecentOk(kv) && ListsOk(kv) && VotesOk(kv) && CommentsOk(kv)
    ensures Agrees(kv)
  {
  }

  lemma AddKeepsRest(kv: KV, link: Link, author: int, parent: Option<int>, body: string)
    requires Agrees(kv) && GetLink(kv, link.id) == Some(link)
    ensures var b := AddComment(kv, link, author, parent, body); Records(b) && VotesOk(b) && CountersOnly(kv, b)
  {
    hide RecentOk, ListsOk, CommentsOk, NoDup, VotesFor;
    var b := AddComment(kv, link, author, parent, body);
    forall l: int
      ensures VotesFor(b, l) == VotesFor(kv, l)
    {
      VotesSame(kv, b, l);
    }
  }

  /** A comment that is there is on its link's list, so its link counts it. */
  lemma CommentCounted(kv: KV, c: Comment)
    requires Agrees(kv) && GetComment(kv, c.id) == Some(c)
    ensures GetLink(kv, c.link).Some? && GetLink(kv, c.link).value.id == c.link
    ensures c.id in Idx(kv, LinkComments(c.link)) && GetLink(kv, c.link).value.comments > 0
    ensures DropComment(kv, c) ==
            (Remove(kv, LinkComments(c.link), c.id) - {CommentKey(c.id)})
            [LinkKey(c.link) := LinkV(GetLink(kv, c.link).value.(comments := GetLink(kv, c.link).value.comments - 1))]
  {
    hide RecentOk, ListsOk, VotesOk, NoDup;
    assert CommentRow(kv, c.link, c.id);
  }

  lemma DropCommentRow(kv: KV, c: Comment, l: int, x: int)
    requires Agrees(kv) && GetComment(kv, c.id) == Some(c) && CommentRow(kv, l, x)
    ensures CommentRow(DropComment(kv, c), l, x)
  {
    hide NoDup, RecentOk, ListsOk, VotesOk, CommentsOk, DropComment;
    var b := DropComment(kv, c);
    CommentCounted(kv, c);
    RemovedMembers(Idx(kv, LinkComments(c.link)), c.id);
    RemovedNoDup(Idx(kv, LinkComments(l)), c.id);
    assert Idx(b, LinkComments(l)) == if l == c.link then Removed(Idx(kv, LinkComments(l)), c.id) else Idx(kv, LinkComments(l));
  }

  lemma DropCommentRest(kv: KV, c: Comment)
    requires Agrees(kv) && GetComment(kv, c.id) == Some(c)
    ensures var b := DropComment(kv, c); Records(b) && VotesOk(b) && CountersOnly(kv, b)
  {
    hide RecentOk, ListsOk, CommentsOk, NoDup, VotesFor, DropComment;
    var b := DropComment(kv, c);
    CommentCounted(kv, c);
    forall l: int
      ensures VotesFor(b, l) == VotesFor(kv, l)
    {
      VotesSame(kv, b, l);
    }
  }

  lemma DeleteCommentKeeps(kv: KV, id: int, user: int)
    requires Agrees(kv)
    ensures Agrees(DeleteComment(kv, id, user).0)
  {
    hide RecentOk, ListsOk, VotesOk, DropComment, Agrees, CommentRow, Records;
    AgreesParts(kv);
    CommentId(kv, id);
    match GetComment(kv, id)
    case None =>
    case Some(c) =>
      var b := DropComment(kv, c);
      forall l: int, x: int
        ensures CommentRow(b, l, x)
      {
        assert CommentRow(kv, l, x);
        DropCommentRow(kv, c, l, x);
      }
      DropCommentRest(kv, c);
      CountersKeepLists(kv, b);
      AgreesFrom(b);
  }

  lemma CommentId(kv: KV, id: int)
    requires Records(kv)
    ensures GetComment(kv, id).Some? ==> GetComment(kv, id).value.id == id
  {
  }

  // ---- Votes ----

  lemma ToggledVotes(kv: KV, link: int, user: int, l: int)
    ensures var voted, b := VoteKey(link, user) in kv, if VoteKey(link, user) in kv then kv - {VoteKey(link, user)} else kv[VoteKey(link, user) := VoteV];
            VotesFor(b, l) == if l != link then VotesFor(kv, l)
                              else if voted then VotesFor(kv, l) - {VoteKey(link, user)} else VotesFor(kv, l) + {VoteKey(link, user)}
  {
  }

  lemma ToggleVotes(kv: KV, link: int, user: int, l: int)
    requires Agrees(kv) && GetLink(kv, link).Some? && GetLink(kv, link).value.id == link
    ensures var b := ToggleVote(kv, link, user).0;
            && (LinkKey(l) in b <==> LinkKey(l) in kv)
            && (LinkKey(l) in kv && kv[LinkKey(l)].LinkV? ==> b[LinkKey(l)].LinkV? && b[LinkKey(l)].link.votes == |VotesFor(b, l)|)
  {
    hide NoDup, RecentOk, ListsOk, CommentsOk, VotesFor;
    var a := if VoteKey(link, user) in kv then kv - {VoteKey(link, user)} else kv[VoteKey(link, user) := VoteV];
    var b := ToggleVote(kv, link, user).0;
    ToggledVotes(kv, link, user, l);
    VotesSame(a, b, l);
    VoteIn(kv, link, user);
  }

  lemma VoteIn(kv: KV, link: int, user: int)
    ensures VoteKey(link, user) in VotesFor(kv, link) <==> VoteKey(link, user) in kv
  {
  }

  lemma ToggleRest(kv: KV, link: int, user: int)
    requires Agrees(kv) && GetLink(kv, link).Some? && GetLink(kv, link).value.id == link
    ensures var b := ToggleVote(kv, link, user).0; Records(b) && CountersOnly(kv, b) && CommentsOk(b)
  {
    hide NoDup, RecentOk, ListsOk, VotesOk;
    var b := ToggleVote(kv, link, user).0;
    forall l: int, x: int
      ensures CommentRow(b, l, x)
    {
      assert CommentRow(kv, l, x);
    }
  }

  lemma ToggleKeeps(kv: KV, link: int, user: int)
    requires Agrees(kv)
    ensures Agrees(ToggleVote(kv, link, user).0)
  {
    hide RecentOk, ListsOk, CommentsOk, NoDup, ToggleVote, Records, VotesFor;
    var b := ToggleVote(kv, link, user).0;
    LinkId(kv, link);
    if GetLink(kv, link).Some? {
      forall l: int
        ensures LinkKey(l) in b <==> LinkKey(l) in kv
        ensures LinkKey(l) in kv && kv[LinkKey(l)].LinkV? ==> b[LinkKey(l)].LinkV? && b[LinkKey(l)].link.votes == |VotesFor(b, l)|
      {
        ToggleVotes(kv, link, user, l);
      }
      ToggleRest(kv, link, user);
      CountersKeepLists(kv, b);
      VoteKeysOf(kv, link, user);
    } else {
      ToggleNothing(kv, link, user);
    }
  }

  lemma ToggleNothing(kv: KV, link: int, user: int)
    requires GetLink(kv, link).None?
    ensures ToggleVote(kv, link, user).0 == kv
  {
  }

  lemma VoteKeysOf(kv: KV, link: int, user: int)
    requires GetLink(kv, link).Some?
    ensures LinkKey(link) in kv
    ensures forall l: int, u: int | VoteKey(l, u) in ToggleVote(kv, link, user).0 :: VoteKey(l, u) in kv || l == link
    ensures forall l: int | LinkKey(l) in ToggleVote(kv, link, user).0 && l != link :: LinkKey(l) in kv && ToggleVote(kv, link, user).0[LinkKey(l)] == kv[LinkKey(l)]
    ensures forall l: int | LinkKey(l) in ToggleVote(kv, link, user).0 && ToggleVote(kv, link, user).0[LinkKey(l)].LinkV? :: LinkKey(l) in kv && kv[LinkKey(l)].LinkV?
  {
  }

  // ---- What one request undoes ----

  /** A second press of the vote button takes back the first: record, count and vote are as they were. */
  lemma VoteTwice(kv: KV, link: int, user: int)
    requires Agrees(kv) && GetLink(kv, link).Some?
    requires VoteKey(link, user) in kv ==> kv[VoteKey(link, user)] == VoteV
    ensures var (a, first) := ToggleVote(kv, link, user);
            var (b, second) := ToggleVote(a, link, user);
            && b == kv && first.Done? && second.Done? && first.value.0 == !second.value.0
            && second.value.1 == GetLink(kv, link).value.votes
            && first.value.1 == (if first.value.0 then second.value.1 + 1 else second.value.1 - 1)
  {
    hide NoDup, RecentOk, ListsOk, CommentsOk, VotesFor;
    LinkId(kv, link);
    VoteIn(kv, link, user);
    assert VoteKey(link, user) in kv ==> GetLink(kv, link).value.votes > 0;
    var a := ToggleVote(kv, link, user).0;
    assert ToggleVote(a, link, user).0 == kv;
  }

  lemma CommentMade(kv: KV, link: Link, author: int, parent: Option<int>, body: string)
    requires Agrees(kv) && GetLink(kv, link.id) == Some(link)
    ensures var a, id := AddComment(kv, link, author, parent, body), Counter(kv, SeqComment) + 1;
            && CommentKey(id) !in kv && id !in Idx(kv, LinkComments(link.id))
            && Idx(a, LinkComments(link.id)) == Idx(kv, LinkComments(link.id)) + [id]
            && GetComment(a, id) == Some(Comment(id, link.id, author, parent, body))
            && GetLink(a, link.id) == Some(link.(comments := link.comments + 1))
            && Counter(a, SeqComment) == id && link.comments >= 0
            && Elsewhere(kv, a, {SeqComment, CommentKey(id), LinkComments(link.id), LinkKey(link.id)})
  {
    hide NoDup, RecentOk, ListsOk, VotesOk;
    assert CommentRow(kv, link.id, Counter(kv, SeqComment) + 1);
  }

  lemma CommentDropped(a: KV, c: Comment, link: Link)
    requires GetLink(a, c.link) == Some(link) && link.comments > 0
    ensures var b := DropComment(a, c);
            && Idx(b, LinkComments(c.link)) == Removed(Idx(a, LinkComments(c.link)), c.id)
            && CommentKey(c.id) !in b && Counter(b, SeqComment) == Counter(a, SeqComment)
            && GetLink(b, c.link) == Some(link.(comments := link.comments - 1))
            && Elsewhere(a, b, {CommentKey(c.id), LinkComments(c.link), LinkKey(c.link)})
  {
    hide Removed;
  }

  /** A comment taken back by its author leaves only the comment counter further on. */
  lemma CommentUndone(kv: KV, link: int, author: int, parent: Option<int>, body: string)
    requires Agrees(kv)
    ensures var (a, made) := CreateComment(kv, link, author, parent, body);
            made.Done? ==>
              var b := DeleteComment(a, made.value, author).0;
              && Idx(b, LinkComments(link)) == Idx(kv, LinkComments(link)) && CommentKey(made.value) !in b
              && GetLink(b, link) == GetLink(kv, link)
              && Elsewhere(kv, b, {SeqComment, LinkComments(link), CommentKey(made.value), LinkKey(link)})
              && Counter(b, SeqComment) == made.value == Counter(kv, SeqComment) + 1
  {
    hide NoDup, Agrees, MayReply, AddComment, DropComment, Removed, Elsewhere, GetLink, Idx, GetComment;
    var (a, made) := CreateComment(kv, link, author, parent, body);
    if made.Done? {
      var l, id, ids := GetLink(kv, link).value, made.value, Idx(kv, LinkComments(link));
      AgreesParts(kv);
      LinkId(kv, link);
      CommentMade(kv, l, author, parent, body);
      var c := Comment(id, link, author, parent, body);
      CommentDropped(a, c, l.(comments := l.comments + 1));
      RemovedAdd(ids, id, id);
      RemovedNothing(ids, id);
      assert ids + [] == ids;
      ElsewhereTwice(kv, a, DropComment(a, c), {SeqComment, CommentKey(id), LinkComments(link), LinkKey(link)},
                     {CommentKey(id), LinkComments(link), LinkKey(link)});
    }
  }

  lemma ElsewhereTwice(a: KV, b: KV, c: KV, s: set<Key>, t: set<Key>)
    requires Elsewhere(a, b, s) && Elsewhere(b, c, t) && t <= s
    ensures forall u: set<Key> | s <= u :: Elsewhere(a, c, u)
  {
  }

  /** A link deleted by its owner right away leaves every list as it was. */
  lemma LinkUndone(kv: KV, link: Link)
    requires Agrees(kv) && LinkKey(link.id) !in kv && NoDup(link.tags)
    ensures var b := DeleteLink(CreateLink(kv, link), link.id, link.owner).0;
            && LinkKey(link.id) !in b && Idx(b, RecentLinks) == Idx(kv, RecentLinks)
            && (forall u: int :: Idx(b, UserLinks(u)) == Idx(kv, UserLinks(u)))
            && (forall t: string :: Idx(b, TagLinks(t)) == Idx(kv, TagLinks(t)))
  {
    hide NoDup, CreateLink, DropLink, Select, Removed, Agrees, Records;
    var a, id := CreateLink(kv, link), link.id;
    AgreesParts(kv);
    CreateLooks(kv, link);
    assert GetLink(a, id) == Some(link);
    DropLooks(a, link);
    assert Cut(a, id, LinkKey(id));
    forall k: Key | k.RecentLinks? || k.UserLinks? || k.TagLinks?
      ensures Removed([id] + Idx(kv, k), id) == Idx(kv, k) && Removed(Idx(kv, k), id) == Idx(kv, k)
    {
      NotListed(kv, id, k);
      RemovedHead(Idx(kv, k), id);
    }
  }

  /** Only links that exist are on a list. */
  lemma NotListed(kv: KV, id: int, k: Key)
    requires RecentOk(kv) && ListsOk(kv) && LinkKey(id) !in kv && (k.RecentLinks? || k.UserLinks? || k.TagLinks?)
    ensures id !in Idx(kv, k)
  {
    hide NoDup, Select;
    if k.TagLinks? {
      SelectMembers(Idx(kv, RecentLinks), Tagged(kv, k.tag));
    } else if k.UserLinks? {
      SelectMembers(Idx(kv, RecentLinks), Owned(kv, k.user));
    }
  }

  lemma {:induction false} RemovedHead(ids: seq<int>, id: int)
    requires id !in ids
    ensures Removed([id] + ids, id) == ids && Removed(ids, id) == ids
  {
    hide Removed;
    RemovedLast([id] + ids, id);
    RemovedLast(ids, id);
    if |ids| == 0 {
      assert [id] + ids == [id] && [id][..0] == [];
      RemovedLast([], id);
    } else {
      var init := ids[..|ids| - 1];
      RemovedHead(init, id);
      assert ([id] + ids)[..|ids|] == [id] + init && ids == init + [ids[|ids| - 1]];
    }
  }

  /** The last id decides for itself. */
  lemma RemovedLast(ids: seq<int>, id: int)
    ensures |ids| == 0 ==> Removed(ids, id) == []
    ensures |ids| > 0 ==> Removed(ids, id) == Removed(ids[..|ids| - 1], id) + if ids[|ids| - 1] == id then [] else [ids[|ids| - 1]]
  {
  }

  // ---- Any sequence of requests ----

  /**
    What the handlers do. A new link's id is drawn before the handler takes the lock,
    so other requests may come between the two.
   */
  datatype Request =
    | DrawLinkId
    | PutLink(record: Link)                  // with an id drawn before
    | Delete(link: int, user: int)
    | CommentOn(link: int, author: int, parent: Option<int>, body: string)
    | Uncomment(comment: int, user: int)
    | Vote(link: int, user: int)

  /** The store, and the link ids drawn and not yet used. */
  datatype Site = Site(kv: KV, drawn: set<int>)

  ghost predicate SiteOk(s: Site) {
    Agrees(s.kv) && forall id | id in s.drawn :: id <= Counter(s.kv, SeqLink) && LinkKey(id) !in s.kv
  }

  predicate Allowed(s: Site, r: Request) {
    r.PutLink? ==> r.record.id in s.drawn && NoDup(r.record.tags) && r.record.votes == 0 && r.record.comments == 0
  }

  function Serve(s: Site, r: Request): Site {
    match r
    case DrawLinkId =>
      var id := Counter(s.kv, SeqLink) + 1;
      Site(s.kv[SeqLink := CounterV(id)], s.drawn + {id})
    case PutLink(link) => Site(CreateLink(s.kv, link), s.drawn - {link.id})
    case Delete(link, user) => s.(kv := DeleteLink(s.kv, link, user).0)
    case CommentOn(link, author, parent, body) => s.(kv := CreateComment(s.kv, link, author, parent, body).0)
    case Uncomment(comment, user) => s.(kv := DeleteComment(s.kv, comment, user).0)
    case Vote(link, user) => s.(kv := ToggleVote(s.kv, link, user).0)
  }

  /** No link record appears but `made`, and no link id is drawn. */
  ghost predicate NoNewLinks(a: KV, b: KV, made: set<int>) {
    Counter(b, SeqLink) == Counter(a, SeqLink) && forall id: int | LinkKey(id) in b :: LinkKey(id) in a || id in made
  }

  lemma DrawKeeps(kv: KV, n: nat)
    requires Agrees(kv) && n >= Counter(kv, SeqLink)
    ensures Agrees(kv[SeqLink := CounterV(n)])
  {
    hide NoDup, Select;
    var b := kv[SeqLink := CounterV(n)];
    forall l: int
      ensures VotesFor(b, l) == VotesFor(kv, l)
    {
      VotesSame(kv, b, l);
    }
    forall l: int, c: int
      ensures CommentRow(b, l, c)
    {
      assert CommentRow(kv, l, c);
    }
    CountersKeepLists(kv, b);
  }

  lemma CreateMakes(kv: KV, link: Link)
    requires NoDup(link.tags)
    ensures NoNewLinks(kv, CreateLink(kv, link), {link.id})
  {
    hide NoDup, CreateLink;
    CreateLooks(kv, link);
  }

  lemma DeleteMakes(kv: KV, id: int, user: int)
    requires Records(kv)
    ensures NoNewLinks(kv, DeleteLink(kv, id, user).0, {})
  {
    hide NoDup, DropLink;
    if GetLink(kv, id).Some? {
      DropLooks(kv, GetLink(kv, id).value);
    }
  }

  lemma CommentMakes(kv: KV, link: int, author: int, parent: Option<int>, body: string)
    requires Records(kv)
    ensures NoNewLinks(kv, CreateComment(kv, link, author, parent, body).0, {})
  {
  }

  lemma UncommentMakes(kv: KV, id: int, user: int)
    requires Records(kv)
    ensures NoNewLinks(kv, DeleteComment(kv, id, user).0, {})
  {
  }

  lemma VoteMakes(kv: KV, link: int, user: int)
    ensures NoNewLinks(kv, ToggleVote(kv, link, user).0, {})
  {
  }

  lemma ServeKeeps(s: Site, r: Request)
    requires SiteOk(s) && Allowed(s, r)
    ensures SiteOk(Serve(s, r))
  {
    hide NoDup, Agrees, Records, CreateLink, DeleteLink, CreateComment, DeleteComment, ToggleVote;
    AgreesParts(s.kv);
    match r
    case DrawLinkId =>
      DrawKeeps(s.kv, Counter(s.kv, SeqLink) + 1);
      DrawnAbove(s.kv);
    case PutLink(link) =>
      CreateKeeps(s.kv, link);
      CreateMakes(s.kv, link);
    case Delete(link, user) =>
      DeleteKeeps(s.kv, link, user);
      DeleteMakes(s.kv, link, user);
    case CommentOn(link, author, parent, body) =>
      CommentKeeps(s.kv, link, author, parent, body);
      CommentMakes(s.kv, link, author, parent, body);
    case Uncomment(comment, user) =>
      DeleteCommentKeeps(s.kv, comment, user);
      UncommentMakes(s.kv, comment, user);
    case Vote(link, user) =>
      ToggleKeeps(s.kv, link, user);
      VoteMakes(s.kv, link, user);
  }

  lemma DrawnAbove(kv: KV)
    requires Records(kv)
    ensures LinkKey(Counter(kv, SeqLink) + 1) !in kv
  {
  }

  ghost predicate AllAllowed(s: Site, rs: seq<Request>)
    decreases |rs|
  {
    |rs| == 0 || (Allowed(s, rs[0]) && AllAllowed(Serve(s, rs[0]), rs[1..]))
  }

  function ServeAll(s: Site, rs: seq<Request>): Site
    decreases |rs|
  {
    if |rs| == 0 then s else ServeAll(Serve(s, rs[0]), rs[1..])
  }

  /**
    From the empty store (EmptyOk), after any requests in any order: every tag list and user
    list is the recent list filtered, in the same order, every link's vote count is the
    number of its vote keys, and its comment count is the length of its comment list.
   */
  lemma {:induction false} AgreeForever(s: Site, rs: seq<Request>)
    requires SiteOk(s) && AllAllowed(s, rs)
    ensures SiteOk(ServeAll(s, rs))
    decreases |rs|
  {
    hide SiteOk, Serve, Allowed;
    if |rs| > 0 {
      ServeKeeps(s, rs[0]);
      AgreeForever(Serve(s, rs[0]), rs[1..]);
    }
  }

  lemma EmptyOk()
    ensures SiteOk(Site(map[], {}))
  {
  }
}

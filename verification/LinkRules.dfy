/**
  What the application's requests refuse, and to whom; what they change and what they
  leave alone; and what is left of links, comments and votes after any requests.
 */
module LinkRules {
  import opened Wrappers
  import opened StoreKeys
  import opened Links

  // ---- Records ----

  predicate HasLink(kv: KV, id: int) {
    LinkKey(id) in kv && kv[LinkKey(id)].LinkV?
  }

  function LinkAt(kv: KV, id: int): Link
    requires HasLink(kv, id)
  {
    kv[LinkKey(id)].link
  }

  predicate HasComment(kv: KV, id: int) {
    CommentKey(id) in kv && kv[CommentKey(id)].CommentV?
  }

  function CommentAt(kv: KV, id: int): Comment
    requires HasComment(kv, id)
  {
    kv[CommentKey(id)].comment
  }

  // ---- Refusals ----

  /** Who may delete a link: its owner, and nobody else. A refused request changes nothing. */
  lemma DeleteRefusals(kv: KV, id: int, user: int)
    ensures var (after, reply) := DeleteLink(kv, id, user);
            && (reply == Refused(NotFound) <==> !HasLink(kv, id))
            && (reply == Refused(Forbidden) <==> HasLink(kv, id) && LinkAt(kv, id).owner != user)
            && (reply == Done(()) <==> HasLink(kv, id) && LinkAt(kv, id).owner == user)
            && (reply.Refused? ==> after == kv && reply.why != BadRequest)
            && (reply.Done? && LinkAt(kv, id).id == id ==> LinkKey(id) !in after)
  {
    hide DropLists, VotesFor, CommentKeys;
  }

  /** Who may delete a comment: its author, and nobody else. */
  lemma UncommentRefusals(kv: KV, id: int, user: int)
    ensures var (after, reply) := DeleteComment(kv, id, user);
            && (reply == Refused(NotFound) <==> !HasComment(kv, id))
            && (reply == Refused(Forbidden) <==> HasComment(kv, id) && CommentAt(kv, id).author != user)
            && (reply == Done(()) <==> HasComment(kv, id) && CommentAt(kv, id).author == user)
            && (reply.Refused? ==> after == kv && reply.why != BadRequest)
            && (reply.Done? && CommentAt(kv, id).id == id ==> CommentKey(id) !in after)
  {
    hide Remove;
  }

  /** A reply needs a comment on the same link that is no reply itself. */
  predicate Repliable(kv: KV, link: int, parent: int) {
    HasComment(kv, parent) && CommentAt(kv, parent).link == link && CommentAt(kv, parent).parent == None
  }

  lemma CommentRefusals(kv: KV, link: int, author: int, parent: Option<int>, body: string)
    ensures var (after, reply) := CreateComment(kv, link, author, parent, body);
            && (reply == Refused(NotFound) <==> !HasLink(kv, link))
            && (reply == Refused(BadRequest) <==> HasLink(kv, link) && parent.Some? && !Repliable(kv, link, parent.value))
            && (reply.Done? <==> HasLink(kv, link) && (parent.Some? ==> Repliable(kv, link, parent.value)))
            && (reply.Refused? ==> after == kv && reply.why != Forbidden)
  {
    hide AddComment;
  }

  lemma VoteRefusals(kv: KV, link: int, user: int)
    ensures var (after, reply) := ToggleVote(kv, link, user);
            && (reply == Refused(NotFound) <==> !HasLink(kv, link))
            && (reply.Done? <==> HasLink(kv, link))
            && (reply.Refused? ==> after == kv)
  {
  }

  // ---- What an accepted request changes ----

  /** Nothing but what is at these keys differs. */
  ghost predicate OnlyAt(a: KV, b: KV, touched: set<Key>) {
    forall k: Key | k !in touched :: (k in a <==> k in b) && (k in a ==> a[k] == b[k])
  }

  /**
    A comment is recorded as it was made, under an id that no comment has; it is the
    last on its link's list, and the link counts one more.
   */
  lemma CommentLooks(kv: KV, link: int, author: int, parent: Option<int>, body: string)
    requires Agrees(kv) && CreateComment(kv, link, author, parent, body).1.Done?
    ensures var (after, reply) := CreateComment(kv, link, author, parent, body);
            var id := reply.value;
            && CommentKey(id) !in kv && (forall c | HasComment(kv, c) :: c < id)
            && HasComment(after, id) && CommentAt(after, id) == Comment(id, link, author, parent, body)
            && Idx(after, LinkComments(link)) == Idx(kv, LinkComments(link)) + [id]
            && HasLink(kv, link) && HasLink(after, link)
            && LinkAt(after, link) == LinkAt(kv, link).(comments := LinkAt(kv, link).comments + 1)
            && OnlyAt(kv, after, {SeqComment, CommentKey(id), LinkComments(link), LinkKey(link)})
            && Counter(after, SeqComment) == id
  {
    hide NoDup, RecentOk, ListsOk, VotesOk, CommentsOk;
  }

  /** A deleted comment is gone from the records and from its link's list, and the link counts one less. */
  lemma UncommentLooks(kv: KV, id: int, user: int)
    requires Agrees(kv) && DeleteComment(kv, id, user).1.Done?
    ensures var after := DeleteComment(kv, id, user).0;
            && HasComment(kv, id) && CommentKey(id) !in after
            && var link := CommentAt(kv, id).link;
               && id in Idx(kv, LinkComments(link)) && Idx(after, LinkComments(link)) == Removed(Idx(kv, LinkComments(link)), id)
               && HasLink(kv, link) && HasLink(after, link)
               && LinkAt(after, link) == LinkAt(kv, link).(comments := LinkAt(kv, link).comments - 1)
               && OnlyAt(kv, after, {CommentKey(id), LinkComments(link), LinkKey(link)})
  {
    hide NoDup, RecentOk, ListsOk, VotesOk, Removed;
    var link := kv[CommentKey(id)].comment.link;
    assert CommentRow(kv, link, id);
  }

  /** A vote is there afterwards exactly if it was not before; the link's count follows, and the reply tells both. */
  lemma VoteLooks(kv: KV, link: int, user: int)
    requires Agrees(kv) && HasLink(kv, link)
    ensures var (after, reply) := ToggleVote(kv, link, user);
            && (VoteKey(link, user) in after <==> VoteKey(link, user) !in kv)
            && reply.Done? && (reply.value.0 <==> VoteKey(link, user) in after)
            && reply.value.1 == |VotesFor(after, link)| == |VotesFor(kv, link)| + (if reply.value.0 then 1 else -1)
            && HasLink(after, link) && LinkAt(after, link) == LinkAt(kv, link).(votes := reply.value.1)
            && OnlyAt(kv, after, {VoteKey(link, user), LinkKey(link)})
  {
    hide RecentOk, ListsOk, CommentsOk, VotesFor, NoDup;
    var a := if VoteKey(link, user) in kv then kv - {VoteKey(link, user)} else kv[VoteKey(link, user) := VoteV];
    ToggledVotes(kv, link, user, link);
    VotesSame(a, ToggleVote(kv, link, user).0, link);
    VoteIn(kv, link, user);
    assert VoteKey(link, user) in kv ==> |VotesFor(kv, link)| > 0;
  }

  // ---- After any requests ----

  /** What becomes of a link: it stays, but for its counts, unless its owner has it deleted. */
  ghost predicate LinkFate(a: KV, b: KV, id: int, gone: bool)
    requires HasLink(a, id)
  {
    && (LinkKey(id) in b <==> !gone) && (HasLink(b, id) <==> !gone)
    && (HasLink(b, id) ==> LinkAt(b, id) == LinkAt(a, id).(votes := LinkAt(b, id).votes, comments := LinkAt(b, id).comments))
  }

  lemma LinkSame(a: KV, b: KV, touched: set<Key>, id: int)
    requires OnlyAt(a, b, touched) && LinkKey(id) !in touched && HasLink(a, id)
    ensures LinkFate(a, b, id, false)
  {
  }

  lemma RecordsOf(kv: KV, id: int)
    requires Agrees(kv)
    ensures LinkKey(id) in kv ==> HasLink(kv, id) && LinkAt(kv, id).id == id && id <= Counter(kv, SeqLink) && NoDup(LinkAt(kv, id).tags)
    ensures CommentKey(id) in kv ==> HasComment(kv, id) && CommentAt(kv, id).id == id && id <= Counter(kv, SeqComment)
  {
    hide NoDup, RecentOk, ListsOk, VotesOk, CommentsOk;
  }

  lemma DeleteFate(kv: KV, link: int, user: int, id: int)
    requires Agrees(kv) && HasLink(kv, id)
    ensures LinkFate(kv, DeleteLink(kv, link, user).0, id, link == id && user == LinkAt(kv, id).owner)
  {
    hide Agrees, DropLink, NoDup;
    RecordsOf(kv, link);
    RecordsOf(kv, id);
    if HasLink(kv, link) {
      DropLooks(kv, LinkAt(kv, link));
    }
  }

  lemma CreateFate(kv: KV, link: Link, id: int)
    requires HasLink(kv, id) && link.id != id && NoDup(link.tags)
    ensures LinkFate(kv, CreateLink(kv, link), id, false)
  {
    hide CreateLink, NoDup;
    CreateLooks(kv, link);
  }

  lemma CommentFate(kv: KV, link: int, author: int, parent: Option<int>, body: string, id: int)
    requires Agrees(kv) && HasLink(kv, id)
    ensures LinkFate(kv, CreateComment(kv, link, author, parent, body).0, id, false)
  {
    hide CreateComment, Agrees;
    CommentRefusals(kv, link, author, parent, body);
    if CreateComment(kv, link, author, parent, body).1.Done? {
      CommentLooks(kv, link, author, parent, body);
    }
  }

  lemma UncommentFate(kv: KV, c: int, user: int, id: int)
    requires Agrees(kv) && HasLink(kv, id)
    ensures LinkFate(kv, DeleteComment(kv, c, user).0, id, false)
  {
    hide DeleteComment, Agrees, Removed;
    UncommentRefusals(kv, c, user);
    if DeleteComment(kv, c, user).1.Done? {
      UncommentLooks(kv, c, user);
    }
  }

  lemma VoteFate(kv: KV, link: int, user: int, id: int)
    requires Agrees(kv) && HasLink(kv, id)
    ensures LinkFate(kv, ToggleVote(kv, link, user).0, id, false)
  {
    hide ToggleVote, Agrees, VotesFor;
    VoteRefusals(kv, link, user);
    if HasLink(kv, link) {
      VoteLooks(kv, link, user);
    }
  }

  lemma ServeFate(s: Site, r: Request, id: int)
    requires SiteOk(s) && Allowed(s, r) && HasLink(s.kv, id)
    ensures LinkFate(s.kv, Serve(s, r).kv, id, r == Delete(id, LinkAt(s.kv, id).owner))
  {
    hide LinkFate, Agrees, CreateLink, DeleteLink, CreateComment, DeleteComment, ToggleVote, HasLink;
    match r
    case DrawLinkId => LinkSame(s.kv, Serve(s, r).kv, {SeqLink}, id) by { DrawTouches(s.kv); }
    case PutLink(link) => CreateFate(s.kv, link, id) by { LinkThere(s.kv, id); }
    case Delete(link, user) => DeleteFate(s.kv, link, user, id);
    case CommentOn(link, author, parent, body) => CommentFate(s.kv, link, author, parent, body, id);
    case Uncomment(comment, user) => UncommentFate(s.kv, comment, user, id);
    case Vote(link, user) => VoteFate(s.kv, link, user, id);
  }

  lemma DrawTouches(kv: KV)
    ensures OnlyAt(kv, kv[SeqLink := CounterV(Counter(kv, SeqLink) + 1)], {SeqLink})
  {
  }

  lemma LinkThere(kv: KV, id: int)
    requires HasLink(kv, id)
    ensures LinkKey(id) in kv
  {
  }

  /** A link id that is used up: there is no such link and there will be none. */
  ghost predicate LinkOver(s: Site, id: int) {
    LinkKey(id) !in s.kv && id !in s.drawn && id <= Counter(s.kv, SeqLink)
  }

  lemma ServeOver(s: Site, r: Request, id: int)
    requires SiteOk(s) && Allowed(s, r) && LinkOver(s, id)
    ensures LinkOver(Serve(s, r), id)
  {
    hide Agrees, CreateLink, DeleteLink, CreateComment, DeleteComment, ToggleVote, NoDup;
    RecordsAll(s.kv);
    match r
    case DrawLinkId =>
    case PutLink(link) => CreateMakes(s.kv, link);
    case Delete(link, user) => DeleteMakes(s.kv, link, user);
    case CommentOn(link, author, parent, body) => CommentMakes(s.kv, link, author, parent, body);
    case Uncomment(comment, user) => UncommentMakes(s.kv, comment, user);
    case Vote(link, user) => VoteMakes(s.kv, link, user);
  }

  lemma RecordsAll(kv: KV)
    requires Agrees(kv)
    ensures Records(kv)
  {
    hide Records, RecentOk, ListsOk, VotesOk, CommentsOk;
  }

  lemma NotDrawn(s: Site, id: int)
    requires SiteOk(s) && HasLink(s.kv, id)
    ensures id !in s.drawn && id <= Counter(s.kv, SeqLink)
  {
    hide Agrees;
    RecordsOf(s.kv, id);
  }

  lemma ServeEnds(s: Site, r: Request, id: int)
    requires SiteOk(s) && Allowed(s, r) && HasLink(s.kv, id) && LinkKey(id) !in Serve(s, r).kv
    ensures LinkOver(Serve(s, r), id)
  {
    hide Agrees, CreateLink, DeleteLink, CreateComment, DeleteComment, ToggleVote, NoDup;
    NotDrawn(s, id);
    RecordsAll(s.kv);
    match r
    case DrawLinkId =>
    case PutLink(link) => CreateMakes(s.kv, link);
    case Delete(link, user) => DeleteMakes(s.kv, link, user);
    case CommentOn(link, author, parent, body) => CommentMakes(s.kv, link, author, parent, body);
    case Uncomment(comment, user) => UncommentMakes(s.kv, comment, user);
    case Vote(link, user) => VoteMakes(s.kv, link, user);
  }

  lemma {:induction false} OverForever(s: Site, rs: seq<Request>, id: int)
    requires SiteOk(s) && AllAllowed(s, rs) && LinkOver(s, id)
    ensures LinkKey(id) !in ServeAll(s, rs).kv
    decreases |rs|
  {
    hide SiteOk, Serve, Allowed;
    if |rs| > 0 {
      ServeKeeps(s, rs[0]);
      ServeOver(s, rs[0], id);
      OverForever(Serve(s, rs[0]), rs[1..], id);
    }
  }

  /**
    Whatever is requested, in whatever order: a link is there afterwards exactly if its
    owner has not asked for its deletion, and then it is the same but for its counts.
   */
  lemma {:induction false} LinkThereIff(s: Site, rs: seq<Request>, id: int)
    requires SiteOk(s) && AllAllowed(s, rs) && HasLink(s.kv, id)
    ensures LinkFate(s.kv, ServeAll(s, rs).kv, id, Delete(id, LinkAt(s.kv, id).owner) in rs)
    decreases |rs|
  {
    hide SiteOk, Serve, Allowed;
    if |rs| > 0 {
      var t := Serve(s, rs[0]);
      ServeKeeps(s, rs[0]);
      ServeFate(s, rs[0], id);
      assert rs == [rs[0]] + rs[1..];
      if LinkKey(id) in t.kv {
        LinkThereIff(t, rs[1..], id);
      } else {
        ServeEnds(s, rs[0], id);
        OverForever(t, rs[1..], id);
      }
    }
  }

  // ---- Comments after any requests ----

  /** A comment stays as it was made, or is gone. */
  ghost predicate CommentFateIs(a: KV, b: KV, c: int, gone: bool)
    requires HasComment(a, c)
  {
    (CommentKey(c) in b <==> !gone) && (HasComment(b, c) <==> !gone) && (HasComment(b, c) ==> CommentAt(b, c) == CommentAt(a, c))
  }

  lemma CommentSame(a: KV, b: KV, touched: set<Key>, c: int)
    requires OnlyAt(a, b, touched) && CommentKey(c) !in touched && HasComment(a, c)
    ensures CommentFateIs(a, b, c, false)
  {
  }

  /** The link of a comment is there, and lists it. */
  lemma LinkOfComment(kv: KV, c: int)
    requires Agrees(kv) && HasComment(kv, c)
    ensures HasLink(kv, CommentAt(kv, c).link) && c in Idx(kv, LinkComments(CommentAt(kv, c).link))
  {
    hide NoDup, RecentOk, ListsOk, VotesOk;
    assert CommentRow(kv, CommentAt(kv, c).link, c);
  }

  /** Only the comments on a list are on that link. */
  lemma Listed(kv: KV, l: int, c: int)
    requires Agrees(kv) && HasComment(kv, c)
    ensures c in Idx(kv, LinkComments(l)) <==> CommentAt(kv, c).link == l
  {
    hide NoDup, RecentOk, ListsOk, VotesOk;
    assert CommentRow(kv, l, c);
  }

  lemma DeleteOnComment(kv: KV, link: int, user: int, c: int)
    requires Agrees(kv) && HasComment(kv, c) && HasLink(kv, CommentAt(kv, c).link)
    ensures CommentFateIs(kv, DeleteLink(kv, link, user).0, c,
                          link == CommentAt(kv, c).link && user == LinkAt(kv, CommentAt(kv, c).link).owner)
  {
    hide Agrees, DropLink, NoDup;
    RecordsOf(kv, link);
    Listed(kv, link, c);
    if HasLink(kv, link) {
      DropLooks(kv, LinkAt(kv, link));
    }
  }

  lemma CreateOnComment(kv: KV, link: Link, c: int)
    requires HasComment(kv, c) && NoDup(link.tags)
    ensures CommentFateIs(kv, CreateLink(kv, link), c, false)
  {
    hide CreateLink, NoDup;
    CreateLooks(kv, link);
  }

  lemma CommentOnComment(kv: KV, link: int, author: int, parent: Option<int>, body: string, c: int)
    requires Agrees(kv) && HasComment(kv, c)
    ensures CommentFateIs(kv, CreateComment(kv, link, author, parent, body).0, c, false)
  {
    hide CreateComment, Agrees;
    CommentRefusals(kv, link, author, parent, body);
    if CreateComment(kv, link, author, parent, body).1.Done? {
      CommentLooks(kv, link, author, parent, body);
    }
  }

  lemma UncommentOnComment(kv: KV, x: int, user: int, c: int)
    requires Agrees(kv) && HasComment(kv, c)
    ensures CommentFateIs(kv, DeleteComment(kv, x, user).0, c, x == c && user == CommentAt(kv, c).author)
  {
    hide DeleteComment, Agrees, Removed;
    UncommentRefusals(kv, x, user);
    RecordsOf(kv, x);
    if DeleteComment(kv, x, user).1.Done? {
      UncommentLooks(kv, x, user);
    }
  }

  lemma VoteOnComment(kv: KV, link: int, user: int, c: int)
    requires Agrees(kv) && HasComment(kv, c)
    ensures CommentFateIs(kv, ToggleVote(kv, link, user).0, c, false)
  {
    hide ToggleVote, Agrees, VotesFor;
    VoteRefusals(kv, link, user);
    if HasLink(kv, link) {
      VoteLooks(kv, link, user);
    }
  }

  lemma ServeComment(s: Site, r: Request, c: int)
    requires SiteOk(s) && Allowed(s, r) && HasComment(s.kv, c) && HasLink(s.kv, CommentAt(s.kv, c).link)
    ensures var l := CommentAt(s.kv, c).link;
            CommentFateIs(s.kv, Serve(s, r).kv, c,
                          r == Uncomment(c, CommentAt(s.kv, c).author) || r == Delete(l, LinkAt(s.kv, l).owner))
  {
    hide CommentFateIs, Agrees, CreateLink, DeleteLink, CreateComment, DeleteComment, ToggleVote, HasLink, HasComment;
    match r
    case DrawLinkId => CommentSame(s.kv, Serve(s, r).kv, {SeqLink}, c) by { DrawTouches(s.kv); }
    case PutLink(link) => CreateOnComment(s.kv, link, c);
    case Delete(link, user) => DeleteOnComment(s.kv, link, user, c);
    case CommentOn(link, author, parent, body) => CommentOnComment(s.kv, link, author, parent, body, c);
    case Uncomment(comment, user) => UncommentOnComment(s.kv, comment, user, c);
    case Vote(link, user) => VoteOnComment(s.kv, link, user, c);
  }

  /** A comment id that is used up. */
  ghost predicate CommentOver(kv: KV, c: int) {
    CommentKey(c) !in kv && c <= Counter(kv, SeqComment)
  }

  lemma OverOn(a: KV, b: KV, touched: set<Key>, c: int)
    requires OnlyAt(a, b, touched) && SeqComment !in touched && CommentKey(c) !in a && (CommentKey(c) in touched ==> CommentKey(c) !in b)
    ensures CommentKey(c) !in b && Counter(b, SeqComment) == Counter(a, SeqComment)
  {
  }

  lemma ServeCommentOver(s: Site, r: Request, c: int)
    requires SiteOk(s) && Allowed(s, r) && CommentOver(s.kv, c)
    ensures CommentOver(Serve(s, r).kv, c)
  {
    hide Agrees, CreateLink, DeleteLink, CreateComment, DeleteComment, ToggleVote, NoDup, DropLink, Removed, OnlyAt, VotesFor;
    match r
    case DrawLinkId => OverOn(s.kv, Serve(s, r).kv, {SeqLink}, c) by { DrawTouches(s.kv); }
    case PutLink(link) => CreateLooks(s.kv, link); ElsewhereOver(s.kv, Serve(s, r).kv, {LinkKey(link.id), RecentLinks, UserLinks(link.owner)}, c);
    case Delete(link, user) => DeleteOver(s.kv, link, user, c);
    case CommentOn(link, author, parent, body) => CommentOverToo(s.kv, link, author, parent, body, c);
    case Uncomment(comment, user) =>
      UncommentRefusals(s.kv, comment, user);
      if DeleteComment(s.kv, comment, user).1.Done? {
        UncommentLooks(s.kv, comment, user);
        var link := CommentAt(s.kv, comment).link;
        OverOn(s.kv, Serve(s, r).kv, {CommentKey(comment), LinkComments(link), LinkKey(link)}, c);
      }
    case Vote(link, user) =>
      VoteRefusals(s.kv, link, user);
      if HasLink(s.kv, link) {
        VoteLooks(s.kv, link, user);
        OverOn(s.kv, Serve(s, r).kv, {VoteKey(link, user), LinkKey(link)}, c);
      }
  }

  lemma ElsewhereOver(a: KV, b: KV, touched: set<Key>, c: int)
    requires Elsewhere(a, b, touched) && SeqComment !in touched && CommentKey(c) !in touched && CommentKey(c) !in a
    ensures CommentKey(c) !in b && Counter(b, SeqComment) == Counter(a, SeqComment)
  {
  }

  lemma DeleteOver(kv: KV, link: int, user: int, c: int)
    requires Agrees(kv) && CommentOver(kv, c)
    ensures CommentOver(DeleteLink(kv, link, user).0, c)
  {
    hide Agrees, DropLink, NoDup;
    RecordsOf(kv, link);
    if HasLink(kv, link) {
      DropLooks(kv, LinkAt(kv, link));
    }
  }

  lemma CommentOverToo(kv: KV, link: int, author: int, parent: Option<int>, body: string, c: int)
    requires Agrees(kv) && CommentOver(kv, c)
    ensures CommentOver(CreateComment(kv, link, author, parent, body).0, c)
  {
    hide CreateComment, Agrees;
    CommentRefusals(kv, link, author, parent, body);
    if CreateComment(kv, link, author, parent, body).1.Done? {
      CommentLooks(kv, link, author, parent, body);
      NewIdNext(kv, link, author, parent, body);
    }
  }

  lemma NewIdNext(kv: KV, link: int, author: int, parent: Option<int>, body: string)
    requires CreateComment(kv, link, author, parent, body).1.Done?
    ensures CreateComment(kv, link, author, parent, body).1.value > Counter(kv, SeqComment)
  {
    hide AddComment;
  }

  lemma {:induction false} CommentOverForever(s: Site, rs: seq<Request>, c: int)
    requires SiteOk(s) && AllAllowed(s, rs) && CommentOver(s.kv, c)
    ensures CommentKey(c) !in ServeAll(s, rs).kv
    decreases |rs|
  {
    hide SiteOk, Serve, Allowed;
    if |rs| > 0 {
      ServeKeeps(s, rs[0]);
      ServeCommentOver(s, rs[0], c);
      CommentOverForever(Serve(s, rs[0]), rs[1..], c);
    }
  }

  lemma ServeEndsComment(s: Site, r: Request, c: int)
    requires SiteOk(s) && Allowed(s, r) && HasComment(s.kv, c) && CommentKey(c) !in Serve(s, r).kv
    ensures CommentOver(Serve(s, r).kv, c)
  {
    hide Agrees, CreateLink, DeleteLink, CreateComment, DeleteComment, ToggleVote, NoDup, DropLink, Removed, OnlyAt, VotesFor;
    RecordsOf(s.kv, c);
    match r
    case DrawLinkId => CommentSame(s.kv, Serve(s, r).kv, {SeqLink}, c) by { DrawTouches(s.kv); }
    case PutLink(link) => CreateOnComment(s.kv, link, c);
    case Delete(link, user) => CounterStays(s.kv, link, user);
    case CommentOn(link, author, parent, body) => CommentOnComment(s.kv, link, author, parent, body, c);
    case Uncomment(comment, user) =>
      UncommentRefusals(s.kv, comment, user);
      if DeleteComment(s.kv, comment, user).1.Done? {
        UncommentLooks(s.kv, comment, user);
        var link := CommentAt(s.kv, comment).link;
        CounterOn(s.kv, Serve(s, r).kv, {CommentKey(comment), LinkComments(link), LinkKey(link)});
      }
    case Vote(link, user) => VoteOnComment(s.kv, link, user, c);
  }

  lemma CounterOn(a: KV, b: KV, touched: set<Key>)
    requires OnlyAt(a, b, touched) && SeqComment !in touched
    ensures Counter(b, SeqComment) == Counter(a, SeqComment)
  {
  }

  lemma CounterStays(kv: KV, link: int, user: int)
    requires Agrees(kv)
    ensures Counter(DeleteLink(kv, link, user).0, SeqComment) == Counter(kv, SeqComment)
  {
    hide Agrees, DropLink, NoDup;
    RecordsOf(kv, link);
    if HasLink(kv, link) {
      DropLooks(kv, LinkAt(kv, link));
    }
  }

  /**
    Whatever is requested: a comment is there afterwards exactly if neither its author
    has asked for its deletion nor the owner of its link for the link's, and then it is
    as it was made.
   */
  lemma {:induction false} CommentThereIff(s: Site, rs: seq<Request>, c: int)
    requires SiteOk(s) && AllAllowed(s, rs) && HasComment(s.kv, c)
    ensures var l := CommentAt(s.kv, c).link;
            && HasLink(s.kv, l)
            && CommentFateIs(s.kv, ServeAll(s, rs).kv, c,
                             Uncomment(c, CommentAt(s.kv, c).author) in rs || Delete(l, LinkAt(s.kv, l).owner) in rs)
    decreases |rs|
  {
    hide SiteOk, Serve, Allowed;
    LinkOfCommentAt(s, c);
    if |rs| > 0 {
      var t, l := Serve(s, rs[0]), CommentAt(s.kv, c).link;
      ServeKeeps(s, rs[0]);
      ServeComment(s, rs[0], c);
      ServeFate(s, rs[0], l);
      assert rs == [rs[0]] + rs[1..];
      if CommentKey(c) in t.kv {
        CommentThereIff(t, rs[1..], c);
      } else {
        ServeEndsComment(s, rs[0], c);
        CommentOverForever(t, rs[1..], c);
      }
    }
  }

  lemma LinkOfCommentAt(s: Site, c: int)
    requires SiteOk(s) && HasComment(s.kv, c)
    ensures HasLink(s.kv, CommentAt(s.kv, c).link)
  {
    hide Agrees;
    LinkOfComment(s.kv, c);
  }

  // ---- Votes after any requests ----

  /** How often the user pressed the link's button. */
  function Presses(rs: seq<Request>, link: int, user: int): nat
    decreases |rs|
  {
    if |rs| == 0 then 0 else (if rs[0] == Vote(link, user) then 1 else 0) + Presses(rs[1..], link, user)
  }

  lemma ServeVote(s: Site, r: Request, link: int, user: int)
    requires SiteOk(s) && Allowed(s, r) && HasLink(s.kv, link) && LinkKey(link) in Serve(s, r).kv
    ensures VoteKey(link, user) in Serve(s, r).kv <==> (VoteKey(link, user) in s.kv) != (r == Vote(link, user))
  {
    hide Agrees, CreateLink, DeleteLink, CreateComment, DeleteComment, ToggleVote, NoDup, DropLink, Removed, OnlyAt, VotesFor;
    match r
    case DrawLinkId => VoteElsewhere(s.kv, Serve(s, r).kv, {SeqLink}, link, user) by { DrawTouches(s.kv); }
    case PutLink(l) => CreateLooks(s.kv, l);
    case Delete(l, u) => DeleteOnVote(s.kv, l, u, link, user);
    case CommentOn(l, author, parent, body) =>
      CommentRefusals(s.kv, l, author, parent, body);
      if CreateComment(s.kv, l, author, parent, body).1.Done? {
        CommentLooks(s.kv, l, author, parent, body);
        var id := CreateComment(s.kv, l, author, parent, body).1.value;
        VoteElsewhere(s.kv, Serve(s, r).kv, {SeqComment, CommentKey(id), LinkComments(l), LinkKey(l)}, link, user);
      }
    case Uncomment(comment, u) =>
      UncommentRefusals(s.kv, comment, u);
      if DeleteComment(s.kv, comment, u).1.Done? {
        UncommentLooks(s.kv, comment, u);
        var l := CommentAt(s.kv, comment).link;
        VoteElsewhere(s.kv, Serve(s, r).kv, {CommentKey(comment), LinkComments(l), LinkKey(l)}, link, user);
      }
    case Vote(l, u) =>
      VoteRefusals(s.kv, l, u);
      if HasLink(s.kv, l) {
        VoteLooks(s.kv, l, u);
        if l != link || u != user {
          VoteElsewhere(s.kv, Serve(s, r).kv, {VoteKey(l, u), LinkKey(l)}, link, user);
        }
      }
  }

  lemma VoteElsewhere(a: KV, b: KV, touched: set<Key>, link: int, user: int)
    requires OnlyAt(a, b, touched) && VoteKey(link, user) !in touched
    ensures VoteKey(link, user) in b <==> VoteKey(link, user) in a
  {
  }

  lemma DeleteOnVote(kv: KV, l: int, u: int, link: int, user: int)
    requires Agrees(kv) && HasLink(kv, link) && LinkKey(link) in DeleteLink(kv, l, u).0
    ensures VoteKey(link, user) in DeleteLink(kv, l, u).0 <==> VoteKey(link, user) in kv
  {
    hide Agrees, DropLink, NoDup;
    RecordsOf(kv, l);
    if HasLink(kv, l) {
      DropLooks(kv, LinkAt(kv, l));
    }
  }

  /**
    Whatever is requested: of a link that is still there, a user's vote is there exactly
    if it was there before and pressed an even number of times since, or was not and
    pressed an odd number of times. Of a link that is gone there is none (AgreeForever).
   */
  lemma {:induction false} VotedIff(s: Site, rs: seq<Request>, link: int, user: int)
    requires SiteOk(s) && AllAllowed(s, rs) && HasLink(s.kv, link) && LinkKey(link) in ServeAll(s, rs).kv
    ensures VoteKey(link, user) in ServeAll(s, rs).kv <==> (VoteKey(link, user) in s.kv) != (Presses(rs, link, user) % 2 == 1)
    decreases |rs|
  {
    hide SiteOk, Serve, Allowed;
    if |rs| > 0 {
      var t := Serve(s, rs[0]);
      ServeKeeps(s, rs[0]);
      ServeFate(s, rs[0], link);
      LinkThereIff(s, rs, link);
      assert rs == [rs[0]] + rs[1..];
      ServeVote(s, rs[0], link, user);
      VotedIff(t, rs[1..], link, user);
    }
  }
}

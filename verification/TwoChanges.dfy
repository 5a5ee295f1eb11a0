/**
  Two leaders that each change the members. A leader may change them before it has
  committed an entry of its own term. Then two leaders, in different terms, may both
  change the same configuration, and a majority of one result need not meet a majority
  of the other. What follows is one run of the cluster with that outcome: two nodes
  commit different entries at the same index.
 */
module TwoChanges {
  import opened Wrappers
  import opened RaftTypes
  import opened CompactLog
  import opened Protocol
  import opened Cluster
  import opened MembershipRules
  import opened Elections
  import StoreSpec

  // ---- What happens at one node ----

  /** What matters of a node here; its log is not compacted. */
  predicate Is(n: Node, id: Id, role: Role, term: nat, es: seq<Entry>, members: Members) {
    && n.id == id && n.role == role && n.term == term && n.log == RLog(0, 0, es) && n.log.Valid()
    && n.commitIndex == 0 && n.cfg.members == members && !n.cfg.joining
  }

  /** A leader that knows of no peer holding anything. */
  predicate KnowsNothing(n: Node) {
    n.matchIndex.Keys == n.nextIndex.Keys == Peers(n) && forall p | p in n.matchIndex :: n.matchIndex[p] == 0
  }

  lemma WonIs(n: Node, votes: set<Id>, id: Id, role: Role, t: nat, es: seq<Entry>, members: Members)
    requires Is(n, id, role, t, es, members)
    ensures Is(Won(n, votes), id, Leader, t + 1, es + [Entry(t + 1, |es| + 1, Noop)], members)
    ensures KnowsNothing(Won(n, votes)) && Won(n, votes).cfg == n.cfg
    ensures forall p | p in Won(n, votes).nextIndex :: Won(n, votes).nextIndex[p] == |es| + 1
  {
  }

  /** While nothing is known to be held, nothing is committed. */
  lemma NothingCommitted(n: Node)
    requires n.log.Valid() && n.commitIndex == 0 && Majority(n) > 1 && forall p | p in n.matchIndex :: n.matchIndex[p] == 0
    ensures AdvanceCommit(n) == n
  {
    hide CommitUpTo, Majority, RLog.Valid, RLog.TermAt;
    CommitFound(n, n.log.LastIndex());
    forall idx: nat | idx > 0
      ensures Holders(n, idx) == {}
    {
    }
  }

  /** Without `x` the leader tracks its other peers as before. */
  lemma RemovalTracks(n: Node, x: Id, index: nat, members: Members)
    requires n.role == Leader && KnowsNothing(n) && n.cfg.members == members && n.id in members && x in members && x != n.id
    ensures var m := ApplyConfig(n, members - {x}, index);
            && m == n.(cfg := m.cfg, nextIndex := m.nextIndex, matchIndex := m.matchIndex)
            && m.cfg.members == members - {x} && (!n.cfg.joining ==> !m.cfg.joining) && KnowsNothing(m)
            && forall p | p in m.nextIndex :: p in n.nextIndex && m.nextIndex[p] == n.nextIndex[p]
  {
    hide RLog.LastIndex;
    var m := ApplyConfig(n, members - {x}, index);
    assert Peers(m) == Peers(n) - {x};
  }

  lemma RemovalIs(n: Node, x: Id, call: nat, id: Id, t: nat, es: seq<Entry>, members: Members) returns (m: Node)
    requires Is(n, id, Leader, t, es, members) && KnowsNothing(n) && n.cfg.configIndex == 0
    requires id in members && x in members && x != id && |members| > 2
    ensures ProposeConfig(n, Remove(x), call) == Accepted(m)
    ensures Is(m, id, Leader, t, es + [Entry(t, |es| + 1, Config(members - {x}))], members - {x}) && KnowsNothing(m)
    ensures forall p | p in m.nextIndex :: p in n.nextIndex && m.nextIndex[p] == n.nextIndex[p]
  {
    hide ApplyConfig, KnowsNothing, Majority, AdvanceCommit;
    var e := Entry(t, |es| + 1, Config(members - {x}));
    EndsAt(n.log);
    var k := n.(log := n.log.Append(e), waiters := n.waiters[e.index := call]);
    SameIndexes(n, k);
    RemovalTracks(k, x, e.index, members);
    m := ApplyConfig(k, members - {x}, e.index);
    RestSize(m);
    NoneKnown(m);
    NothingCommitted(m);
  }

  lemma EndsAt(l: RLog)
    requires l.Valid() && l.snapIndex == 0
    ensures l.LastIndex() == |l.entries| && forall e: Entry | e.index == |l.entries| + 1 :: l.Append(e).Valid()
  {
  }

  lemma SameIndexes(n: Node, m: Node)
    requires KnowsNothing(n) && m.id == n.id && m.cfg == n.cfg && m.nextIndex == n.nextIndex && m.matchIndex == n.matchIndex
    ensures KnowsNothing(m)
  {
  }

  lemma NoneKnown(n: Node)
    requires KnowsNothing(n)
    ensures forall p | p in n.matchIndex :: n.matchIndex[p] == 0
  {
  }

  lemma RestSize(n: Node)
    requires n.id in n.cfg.members && |n.cfg.members| > 1
    ensures ClusterSize(n) == |n.cfg.members| && Majority(n) > 1
  {
  }

  /** A later term is heard of in a request that does not get the vote. */
  lemma Refuses(n: Node, req: VoteReq, id: Id, t: nat, es: seq<Entry>, members: Members)
    requires Is(n, id, Leader, t, es, members) && req.term > t && !CandidateUpToDate(n, req)
    ensures var (m, resp) := HandleVote(n, req); Is(m, id, Follower, req.term, es, members) && resp == VoteResp(req.term, false)
  {
    hide Flush, RLog.LastIndex, RLog.LastTerm;
    BecomeFollowerFields(n, req.term);
  }

  /** One peer of two holds the whole log. */
  lemma CommitsByOne(n: Node, req: AppendReq, resp: AppendResp, id: Id, t: nat, es: seq<Entry>, members: Members)
    requires Is(n, id, Leader, t, es, members) && KnowsNothing(n) && |es| > 0 && es[|es| - 1].term == t && ClusterSize(n) == 3
    requires req.term == t && req.prevIndex + |req.entries| == |es| && resp.success && resp.term == t && req.to in n.matchIndex
    ensures OnAppendResp(n, req, resp).commitIndex == |es| && OnAppendResp(n, req, resp).log == n.log
    ensures OnAppendResp(n, req, resp).id == id
  {
    hide ClusterSize;
    var m := n.(matchIndex := n.matchIndex[req.to := |es|], nextIndex := n.nextIndex[req.to := |es| + 1]);
    SameSize(n, m);
    ThreeNodes(n);
    assert req.to in Holders(m, |es|);
    assert |Holders(m, |es|)| > 0;
    assert CanCommit(m, |es|);
  }

  lemma BackToStart(n: Node, req: AppendReq, resp: AppendResp, id: Id, t: nat, es: seq<Entry>, members: Members)
    requires Is(n, id, Leader, t, es, members) && KnowsNothing(n) && req.to in n.nextIndex && n.nextIndex[req.to] > 1
    requires req.term == t && resp == AppendResp(t, false, 0)
    ensures var m := OnAppendResp(n, req, resp);
            Is(m, id, Leader, t, es, members) && KnowsNothing(m) && m.nextIndex[req.to] == 1
  {
  }

  /** The whole log goes out. */
  lemma SendsAll(n: Node, peer: Id, id: Id, t: nat, es: seq<Entry>, members: Members)
    requires Is(n, id, Leader, t, es, members) && peer in n.nextIndex && n.nextIndex[peer] == 1
    ensures BuildAppend(n, peer) == Some(AppendReq(id, peer, None, t, 0, 0, es, 0))
    ensures WellFormed(AppendReq(id, peer, None, t, 0, 0, es, 0))
  {
  }

  /** It is taken in. */
  lemma TakesAll(n: Node, req: AppendReq, t: nat)
    requires n.log.Valid() && WellFormed(req) && req.term == t >= n.term && req.prevIndex == 0
    ensures var (m, resp) := HandleAppend(n, req);
            m.id == n.id && m.log.Valid() && resp == AppendResp(t, true, |req.entries|)
  {
    hide MergeEntries, Merge, Flush, RLog.Valid;
    var m := Acknowledge(n, req);
    AcknowledgeFields(n, req);
    BecomeFollowerFields(n, req.term);
    TakesFit(m, req);
    MergeTouches(m, req.entries);
  }

  lemma TakesFit(n: Node, req: AppendReq)
    requires n.log.Valid() && WellFormed(req) && req.prevIndex == 0
    ensures Fits(n.log, req.entries)
  {
  }

  /** An empty log is not taken further. */
  lemma RefusesTail(n: Node, req: AppendReq)
    requires n.log == RLog(0, 0, []) && req.term == n.term && req.prevIndex > 0 && WellFormed(req) && n.role == Follower
    ensures HandleAppend(n, req) == (Acknowledge(n, req), AppendResp(n.term, false, 0))
    ensures Acknowledge(n, req).log == n.log && Acknowledge(n, req).term == n.term && Acknowledge(n, req).id == n.id
  {
  }

  // ---- The run ----

  const A: Id := "a"
  const B: Id := "b"
  const C: Id := "c"
  const D: Id := "d"

  const BASE: Members := map[A := "1", B := "2", C := "3", D := "4"]

  /** What each leader makes of it: one without `B`, one without `D`. */
  const LEFT_A: Members := BASE - {B}
  const LEFT_B: Members := BASE - {D}

  const LOG_A: seq<Entry> := [Entry(1, 1, Noop), Entry(1, 2, Config(LEFT_A))]
  const LOG_B: seq<Entry> := [Entry(2, 1, Noop), Entry(2, 2, Config(LEFT_B))]
  const LOG_A3: seq<Entry> := LOG_A + [Entry(3, 3, Noop)]

  function Fresh(id: Id): Server {
    Server(Node(id, Follower, 0, None, None, RLog(0, 0, []), 0, 0, map[], map[], 0, {}, false,
                Membership(BASE, BASE, map[], 0, false), map[], map[]),
           map[], map[], None, StoreSpec.EMPTY)
  }

  const START: Cluster := Cluster(map id | id in BASE.Keys :: Fresh(id), {}, 0, map[])

  lemma Names()
    ensures A != B && A != C && A != D && B != C && B != D && C != D
    ensures BASE.Keys == {A, B, C, D} && LEFT_A.Keys == {A, C, D} && LEFT_B.Keys == {A, B, C}
    ensures |BASE| == 4 && |LEFT_A| == 3 && |LEFT_B| == 3 && LEFT_A == BASE - {B} && LEFT_B == BASE - {D}
    ensures LOG_A == [Entry(1, 1, Noop)] + [Entry(1, 2, Config(LEFT_A))] && LOG_B == [Entry(2, 1, Noop)] + [Entry(2, 2, Config(LEFT_B))]
    ensures LOG_A3 == LOG_A + [Entry(3, 3, Noop)] && |LOG_A| == |LOG_B| == 2 && |LOG_A3| == 3
  {
    assert A[0] == 'a' && B[0] == 'b' && C[0] == 'c' && D[0] == 'd';
    assert |BASE.Keys| == 4 && |LEFT_A.Keys| == 3 && |LEFT_B.Keys| == 3;
  }

  lemma Starts()
    ensures At(START, START.servers, 0) && Named(START)
  {
    var r := Trace([START], []);
    assert IsTrace(r) && r.states[|r.states| - 1] == START;
  }

  /** A node that has taken in nothing yet and follows nobody. */
  predicate Blank(n: Node, id: Id, term: nat) {
    Is(n, id, Follower, term, [], BASE) && n.leaderId == None && n.cfg.configIndex == 0
  }

  lemma BlankFavours(n: Node, id: Id, t: nat, m: Node, self: Id, role: Role, u: nat, es: seq<Entry>, members: Members)
    requires Blank(n, id, t) && Is(m, self, role, u, es, members) && t <= u
    ensures Favours(n, m)
  {
  }

  lemma BlankVoted(n: Node, id: Id, t: nat, u: nat, candidate: Id)
    requires Blank(n, id, t)
    ensures Blank(Voted(n, u, candidate), id, u)
  {
  }

  lemma Sizes(n: Node, id: Id, role: Role, t: nat, es: seq<Entry>, members: Members)
    requires Is(n, id, role, t, es, members) && id in members && |members| > 1
    ensures ClusterSize(n) == |members| && MayCampaign(n) && Peers(n) == members.Keys - {id} && Majority(n) > 1
  {
    RestSize(n);
  }

  lemma BlankMayStand(n: Node, id: Id, t: nat)
    requires Blank(n, id, t) && id in BASE
    ensures n.role != Leader && n.id == id && MayCampaign(n) && ClusterSize(n) == 4 && Peers(n) == BASE.Keys - {id}
    ensures Is(n, id, Follower, t, [], BASE) && n.cfg.configIndex == 0
  {
    Names();
    Sizes(n, id, Follower, t, [], BASE);
  }

  lemma BlankWins(n: Node, id: Id, t: nat, votes: set<Id>)
    requires Blank(n, id, t) && id in BASE
    ensures Is(Won(n, votes), id, Leader, t + 1, [Entry(t + 1, 1, Noop)], BASE) && KnowsNothing(Won(n, votes))
    ensures Won(n, votes).cfg.configIndex == 0 && forall p | p in Won(n, votes).nextIndex :: Won(n, votes).nextIndex[p] == 1
  {
    hide Won, KnowsNothing;
    WonIs(n, votes, id, Follower, t, [], BASE);
    assert [] + [Entry(t + 1, 1, Noop)] == [Entry(t + 1, 1, Noop)];
  }

  lemma AllBlank()
    ensures START.servers.Keys == BASE.Keys
    ensures forall id | id in BASE.Keys :: START.servers[id] == Fresh(id)
  {
  }

  lemma FreshBlank(id: Id)
    requires id in BASE.Keys
    ensures Blank(Fresh(id).raft, id, 0) && !Fresh(id).raft.recent
  {
  }

  /** A node that has taken in nothing is elected by two others. */
  lemma BlankElected(c: Cluster, k: nat, id: Id, v: Id, w: Id, t: nat, tv: nat, tw: nat) returns (d: Cluster)
    requires At(c, c.servers, k) && Named(c) && c.servers.Keys == BASE.Keys
    requires id in BASE.Keys && v in BASE.Keys && w in BASE.Keys && v != w && v != id && w != id && tv <= t && tw <= t
    requires Blank(c.servers[id].raft, id, t) && !c.servers[id].raft.recent
    requires Blank(c.servers[v].raft, v, tv) && Blank(c.servers[w].raft, w, tw)
    ensures At(d, d.servers, k + 1) && Named(d) && d.servers.Keys == BASE.Keys
    ensures var n := d.servers[id].raft;
            && Is(n, id, Leader, t + 1, [Entry(t + 1, 1, Noop)], BASE) && KnowsNothing(n)
            && n.cfg.configIndex == 0 && forall p | p in n.nextIndex :: n.nextIndex[p] == 1
    ensures Blank(d.servers[v].raft, v, t + 1) && Blank(d.servers[w].raft, w, t + 1)
    ensures forall j | j in BASE.Keys && j != id && j != v && j != w :: d.servers[j] == c.servers[j]
    ensures forall p | p in BASE.Keys - {id} :: VoteRequest(VoteReq(id, p, false, t + 1, t + 1, 0, 0)) in d.net
  {
    hide *;
    var n := c.servers[id].raft;
    BlankMayStand(n, id, t);
    BlankFavours(c.servers[v].raft, v, tv, n, id, Follower, t, [], BASE);
    BlankFavours(c.servers[w].raft, w, tw, n, id, Follower, t, [], BASE);
    d := ElectedByTwo(c, k, id, v, w);
    KeysStay(c, d, {id, v, w}, k + 1);
    BlankWins(n, id, t, {v, w});
    BlankAsks(n, id, t, v);
    BlankVoted(c.servers[v].raft, v, tv, t + 1, id);
    BlankVoted(c.servers[w].raft, w, tw, t + 1, id);
    forall j | j in BASE.Keys && j != id && j != v && j != w
      ensures d.servers[j] == c.servers[j]
    {
      Still(c, d, {id, v, w}, k + 1, j);
    }
    forall p | p in BASE.Keys - {id}
      ensures VoteRequest(VoteReq(id, p, false, t + 1, t + 1, 0, 0)) in d.net
    {
      BlankAsks(n, id, t, p);
    }
  }

  lemma BlankAsks(n: Node, id: Id, t: nat, p: Id)
    requires Blank(n, id, t) && id in BASE.Keys
    ensures n.term == t && BecomeCandidate(n).term == t + 1 && Peers(BecomeCandidate(n)) == BASE.Keys - {id}
    ensures Ask(BecomeCandidate(n), p, false, t + 1, t + 1) == VoteReq(id, p, false, t + 1, t + 1, 0, 0)
  {
  }

  /** Node `A` leads in term 1. */
  lemma FirstLeads() returns (c: Cluster)
    ensures At(c, c.servers, 1) && Named(c) && c.servers.Keys == BASE.Keys
    ensures Is(c.servers[A].raft, A, Leader, 1, [Entry(1, 1, Noop)], BASE) && KnowsNothing(c.servers[A].raft)
    ensures c.servers[A].raft.cfg.configIndex == 0
    ensures Blank(c.servers[B].raft, B, 1) && Blank(c.servers[C].raft, C, 1) && Blank(c.servers[D].raft, D, 0)
  {
    hide *;
    Names();
    Starts();
    AllBlank();
    FreshBlank(A);
    FreshBlank(B);
    FreshBlank(C);
    FreshBlank(D);
    c := BlankElected(START, 0, A, B, C, 0, 0, 0);
  }

  lemma KeysStay(c: Cluster, d: Cluster, ids: set<Id>, k: nat)
    requires OnlyMoves(c, d, ids, k)
    ensures d.servers.Keys == c.servers.Keys && At(d, d.servers, k)
  {
    hide At;
  }

  lemma NowAt(c: Cluster, ss: map<Id, Server>, k: nat)
    requires At(c, ss, k)
    ensures c.servers == ss && At(c, c.servers, k)
  {
    hide Reached, Sound;
  }

  /** It removes node `B` at once, before anything is committed. */
  lemma FirstChanges() returns (c: Cluster)
    ensures At(c, c.servers, 2) && Named(c) && c.servers.Keys == BASE.Keys
    ensures Is(c.servers[A].raft, A, Leader, 1, LOG_A, LEFT_A) && KnowsNothing(c.servers[A].raft)
    ensures Blank(c.servers[B].raft, B, 1) && Blank(c.servers[C].raft, C, 1) && Blank(c.servers[D].raft, D, 0)
  {
    hide *;
    Names();
    var e := FirstLeads();
    var n := RemovalIs(e.servers[A].raft, B, 1, A, 1, [Entry(1, 1, Noop)], BASE);
    LogsValid(e, e.servers, 1);
    IsValid(n, A, Leader, 1, LOG_A, LEFT_A);
    c := Changes(e, e.servers, 1, A, Remove(B), n);
    NowAt(c, e.servers[A := e.servers[A].(raft := n)], 2);
    IsNamed(e, c, A, n);
  }

  /** Node `B` leads in term 2; node `A`, which is asked too, refuses and steps down. */
  lemma SecondLeads() returns (c: Cluster)
    ensures At(c, c.servers, 3) && Named(c) && c.servers.Keys == BASE.Keys
    ensures Is(c.servers[A].raft, A, Leader, 1, LOG_A, LEFT_A)
    ensures VoteRequest(VoteReq(B, A, false, 2, 2, 0, 0)) in c.net
    ensures Is(c.servers[B].raft, B, Leader, 2, [Entry(2, 1, Noop)], BASE) && KnowsNothing(c.servers[B].raft)
    ensures c.servers[B].raft.cfg.configIndex == 0 && forall p | p in c.servers[B].raft.nextIndex :: c.servers[B].raft.nextIndex[p] == 1
    ensures Blank(c.servers[C].raft, C, 2) && Blank(c.servers[D].raft, D, 2)
  {
    hide *;
    Names();
    var e := FirstChanges();
    var n := e.servers[B].raft.(recent := false);
    var f := Expires(e, e.servers, 2, B);
    NowAt(f, e.servers[B := e.servers[B].(raft := n)], 2);
    StillNamed(e, f);
    BlankExpired(e.servers[B].raft, B, 1);
    c := BlankElected(f, 2, B, C, D, 1, 1, 0);
  }

  lemma BlankExpired(n: Node, id: Id, t: nat)
    requires Blank(n, id, t)
    ensures Blank(n.(recent := false), id, t)
  {
  }

  lemma StillNamed(c: Cluster, d: Cluster)
    requires Named(c) && d.servers.Keys == c.servers.Keys && forall id | id in c.servers :: d.servers[id].raft.id == c.servers[id].raft.id
    ensures Named(d)
  {
  }

  /** It removes node `D`. */
  lemma SecondChanges() returns (c: Cluster)
    ensures At(c, c.servers, 4) && Named(c) && c.servers.Keys == BASE.Keys
    ensures Is(c.servers[A].raft, A, Follower, 2, LOG_A, LEFT_A)
    ensures Is(c.servers[B].raft, B, Leader, 2, LOG_B, LEFT_B) && KnowsNothing(c.servers[B].raft)
    ensures forall p | p in c.servers[B].raft.nextIndex :: c.servers[B].raft.nextIndex[p] == 1
    ensures Blank(c.servers[C].raft, C, 2) && Blank(c.servers[D].raft, D, 2)
  {
    hide *;
    Names();
    var e := SecondLeads();
    var req := VoteReq(B, A, false, 2, 2, 0, 0);
    IsValid(e.servers[A].raft, A, Leader, 1, LOG_A, LEFT_A);
    NotUpToDate(e.servers[A].raft, req);
    Refuses(e.servers[A].raft, req, A, 1, LOG_A, LEFT_A);
    IsValid(HandleVote(e.servers[A].raft, req).0, A, Follower, 2, LOG_A, LEFT_A);
    var m := HandleVote(e.servers[A].raft, req).0;
    var f := Asked(e, e.servers, 3, req, m, VoteResp(2, false));
    NowAt(f, e.servers[A := e.servers[A].(raft := m)], 3);
    IsNamed(e, f, A, m);
    var n := RemovalIs(f.servers[B].raft, D, 3, B, 2, [Entry(2, 1, Noop)], BASE);
    LogsValid(f, f.servers, 3);
    IsValid(n, B, Leader, 2, LOG_B, LEFT_B);
    c := Changes(f, f.servers, 3, B, Remove(D), n);
    NowAt(c, f.servers[B := f.servers[B].(raft := n)], 4);
    IsNamed(f, c, B, n);
  }

  lemma NotUpToDate(n: Node, req: VoteReq)
    requires n.log == RLog(0, 0, LOG_A) && req.lastTerm == 0 && req.lastIndex == 0
    ensures !CandidateUpToDate(n, req)
  {
  }

  lemma IsValid(n: Node, id: Id, role: Role, t: nat, es: seq<Entry>, members: Members)
    requires Is(n, id, role, t, es, members)
    ensures n.log.Valid() && n.id == id && n.log == RLog(0, 0, es) && n.role == role && n.term == t
  {
  }

  /** One server is changed, and keeps its name. */
  lemma IsNamed(c: Cluster, d: Cluster, id: Id, n: Node)
    requires Named(c) && id in c.servers && d.servers == c.servers[id := c.servers[id].(raft := n)] && n.id == id
    ensures Named(d)
  {
  }

  lemma LeaderKnows(n: Node, id: Id, t: nat, es: seq<Entry>, members: Members, peer: Id)
    requires Is(n, id, Leader, t, es, members) && KnowsNothing(n) && id in members && peer in members && peer != id && |members| == 3
    ensures peer in Peers(n) && peer in n.nextIndex && peer in n.matchIndex && ClusterSize(n) == 3
    ensures n.role == Leader && n.log.Valid() && n.id == id && n.term == t && n.log == RLog(0, 0, es)
  {
    Sizes(n, id, Leader, t, es, members);
  }

  /** Node `C` takes the log of `B`, which commits all of it. */
  lemma SecondCommits() returns (c: Cluster)
    ensures At(c, c.servers, 4) && Named(c) && c.servers.Keys == BASE.Keys
    ensures Is(c.servers[A].raft, A, Follower, 2, LOG_A, LEFT_A) && Blank(c.servers[D].raft, D, 2)
    ensures c.servers[B].raft.commitIndex == 2 && c.servers[B].raft.log == RLog(0, 0, LOG_B)
  {
    hide *;
    Names();
    var e := SecondChanges();
    var n := e.servers[B].raft;
    LeaderKnows(n, B, 2, LOG_B, LEFT_B, C);
    SendsAll(n, C, B, 2, LOG_B, LEFT_B);
    var req, resp := AppendReq(B, C, None, 2, 0, 0, LOG_B, 0), AppendResp(2, true, 2);
    var f := Sends(e, e.servers, 4, B, C, req);
    NowAt(f, e.servers, 4);
    LogsValid(f, f.servers, 4);
    BlankMayStand(f.servers[C].raft, C, 2);
    IsValid(f.servers[C].raft, C, Follower, 2, [], BASE);
    TakesAll(f.servers[C].raft, req, 2);
    var m := HandleAppend(f.servers[C].raft, req).0;
    var g := Takes(f, f.servers, 4, req, m, resp);
    NowAt(g, f.servers[C := f.servers[C].(raft := m)], 4);
    CommitsByOne(n, req, resp, B, 2, LOG_B, LEFT_B) by { LastTerms(); }
    var k := OnAppendResp(n, req, resp);
    c := Hears(g, g.servers, 4, req, resp, k);
    NowAt(c, g.servers[B := g.servers[B].(raft := k)], 4);
    StillNamed(e, f);
    IsNamed(f, g, C, m);
    IsNamed(g, c, B, k);
  }

  lemma LastTerms()
    ensures LOG_B[1].term == 2 && LOG_A3[2].term == 3
  {
  }

  /** Node `A` is elected again, by `D`, in term 3. */
  lemma FirstLeadsAgain() returns (c: Cluster)
    ensures At(c, c.servers, 5) && Named(c) && c.servers.Keys == BASE.Keys
    ensures Is(c.servers[A].raft, A, Leader, 3, LOG_A3, LEFT_A) && KnowsNothing(c.servers[A].raft)
    ensures D in c.servers[A].raft.nextIndex && c.servers[A].raft.nextIndex[D] == 3
    ensures Blank(c.servers[D].raft, D, 3)
    ensures c.servers[B].raft.commitIndex == 2 && c.servers[B].raft.log == RLog(0, 0, LOG_B)
  {
    hide *;
    Names();
    var e := SecondCommits();
    var n := e.servers[A].raft.(recent := false);
    var f := Expires(e, e.servers, 4, A);
    NowAt(f, e.servers[A := e.servers[A].(raft := n)], 4);
    StillNamed(e, f);
    IsExpired(e.servers[A].raft, A, Follower, 2, LOG_A, LEFT_A);
    IsValid(n, A, Follower, 2, LOG_A, LEFT_A);
    Sizes(n, A, Follower, 2, LOG_A, LEFT_A);
    BlankFavours(f.servers[D].raft, D, 2, n, A, Follower, 2, LOG_A, LEFT_A);
    c := ElectedByOne(f, 4, A, D);
    KeysStay(f, c, {A, D}, 5);
    Still(f, c, {A, D}, 5, B);
    WonIs(n, {D}, A, Follower, 2, LOG_A, LEFT_A);
    BlankVoted(f.servers[D].raft, D, 2, 3, A);
    LeaderKnows(c.servers[A].raft, A, 3, LOG_A3, LEFT_A, D);
  }

  lemma IsExpired(n: Node, id: Id, role: Role, t: nat, es: seq<Entry>, members: Members)
    requires Is(n, id, role, t, es, members)
    ensures Is(n.(recent := false), id, role, t, es, members)
  {
  }

  lemma SendsTail(n: Node)
    requires Is(n, A, Leader, 3, LOG_A3, LEFT_A) && D in n.nextIndex && n.nextIndex[D] == 3
    ensures BuildAppend(n, D) == Some(AppendReq(A, D, None, 3, 2, 1, [Entry(3, 3, Noop)], 0))
    ensures WellFormed(AppendReq(A, D, None, 3, 2, 1, [Entry(3, 3, Noop)], 0))
  {
    assert LOG_A3[2..] == [Entry(3, 3, Noop)];
  }

  /** Node `D` lacks what comes before, so `A` goes back to the start of its log. */
  lemma FirstTurnedBack() returns (c: Cluster)
    ensures At(c, c.servers, 5) && c.servers.Keys == BASE.Keys
    ensures Is(c.servers[A].raft, A, Leader, 3, LOG_A3, LEFT_A) && KnowsNothing(c.servers[A].raft)
    ensures D in c.servers[A].raft.nextIndex && c.servers[A].raft.nextIndex[D] == 1
    ensures c.servers[D].raft.log.Valid() && c.servers[D].raft.term == 3
    ensures c.servers[B].raft.commitIndex == 2 && c.servers[B].raft.log == RLog(0, 0, LOG_B)
  {
    hide *;
    Names();
    var e := FirstLeadsAgain();
    var n := e.servers[A].raft;
    LeaderKnows(n, A, 3, LOG_A3, LEFT_A, D);
    SendsTail(n);
    var req, resp := AppendReq(A, D, None, 3, 2, 1, [Entry(3, 3, Noop)], 0), AppendResp(3, false, 0);
    var f := Sends(e, e.servers, 5, A, D, req);
    NowAt(f, e.servers, 5);
    LogsValid(f, f.servers, 5);
    BlankMayStand(f.servers[D].raft, D, 3);
    IsValid(f.servers[D].raft, D, Follower, 3, [], BASE);
    RefusesTail(f.servers[D].raft, req);
    var m := Acknowledge(f.servers[D].raft, req);
    var g := Takes(f, f.servers, 5, req, m, resp);
    NowAt(g, f.servers[D := f.servers[D].(raft := m)], 5);
    BackToStart(n, req, resp, A, 3, LOG_A3, LEFT_A);
    var k := OnAppendResp(n, req, resp);
    LeaderKnows(k, A, 3, LOG_A3, LEFT_A, D);
    c := Hears(g, g.servers, 5, req, resp, k);
    NowAt(c, g.servers[A := g.servers[A].(raft := k)], 5);
  }

  /** Node `D` takes the whole log of `A`, which commits all of it. */
  lemma FirstCommits() returns (c: Cluster)
    ensures At(c, c.servers, 5) && c.servers.Keys == BASE.Keys
    ensures c.servers[A].raft.commitIndex == 3 && c.servers[A].raft.log == RLog(0, 0, LOG_A3)
    ensures c.servers[B].raft.commitIndex == 2 && c.servers[B].raft.log == RLog(0, 0, LOG_B)
  {
    hide *;
    Names();
    var e := FirstTurnedBack();
    var n := e.servers[A].raft;
    LeaderKnows(n, A, 3, LOG_A3, LEFT_A, D);
    SendsAll(n, D, A, 3, LOG_A3, LEFT_A);
    var req, resp := AppendReq(A, D, None, 3, 0, 0, LOG_A3, 0), AppendResp(3, true, 3);
    var f := Sends(e, e.servers, 5, A, D, req);
    NowAt(f, e.servers, 5);
    LogsValid(f, f.servers, 5);
    TakesAll(f.servers[D].raft, req, 3);
    var m := HandleAppend(f.servers[D].raft, req).0;
    var g := Takes(f, f.servers, 5, req, m, resp);
    NowAt(g, f.servers[D := f.servers[D].(raft := m)], 5);
    CommitsByOne(n, req, resp, A, 3, LOG_A3, LEFT_A) by { LastTerms(); }
    var k := OnAppendResp(n, req, resp);
    c := Hears(g, g.servers, 5, req, resp, k);
    NowAt(c, g.servers[A := g.servers[A].(raft := k)], 5);
  }

  /**
    With membership changes, committed entries are not safe: a run of the cluster in
    which two nodes commit different entries at index 1. No node crashes on the way.
   */
  lemma CommittedEntriesDiffer() returns (r: Trace)
    ensures IsTrace(r) && |r.states| > 0
    ensures var c := r.states[|r.states| - 1];
            && A in c.servers && B in c.servers
            && var a, b := c.servers[A].raft, c.servers[B].raft;
               && a.commitIndex == |a.log.entries| == 3 && b.commitIndex == |b.log.entries| == 2
               && a.log.entries[0] == Entry(1, 1, Noop) && b.log.entries[0] == Entry(2, 1, Noop)
  {
    hide *;
    Names();
    var c := FirstCommits();
    r := TheTrace(c, c.servers, 5);
    FirstEntries();
  }

  lemma FirstEntries()
    ensures LOG_A3[0] == Entry(1, 1, Noop) && LOG_B[0] == Entry(2, 1, Noop)
  {
  }

  /** Each change is of one member, but a majority of one result need not meet one of the other. */
  lemma MajoritiesMiss()
    ensures OneApart(BASE, LEFT_A) && OneApart(BASE, LEFT_B)
    ensures IsQuorum({A, D}, LEFT_A.Keys) && IsQuorum({B, C}, LEFT_B.Keys) && {A, D} * {B, C} == {}
    ensures Borrowed(LEFT_A.Keys, LEFT_B.Keys) + Borrowed(LEFT_B.Keys, LEFT_A.Keys) <= |LEFT_A.Keys * LEFT_B.Keys|
  {
    hide Borrowed;
    Names();
    assert B in BASE && D in BASE;
    MajoritiesMeetIff(LEFT_A.Keys, LEFT_B.Keys);
    assert IsQuorum({A, D}, LEFT_A.Keys) && IsQuorum({B, C}, LEFT_B.Keys) && {A, D} * {B, C} == {};
  }

  lemma TheTrace(c: Cluster, ss: map<Id, Server>, k: nat) returns (r: Trace)
    requires At(c, ss, k)
    ensures IsTrace(r) && |r.states| > 0 && r.states[|r.states| - 1] == c
  {
    hide Sound;
    r :| IsTrace(r) && |r.states| > 0 && r.states[|r.states| - 1] == c;
  }
}

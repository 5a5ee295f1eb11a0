/**
  That the protocol gets on: from every reachable state, whatever has happened before,
  some calm way leads to a leader, to logs all committed and applied, and to answers.
 */
module Progress {
  import opened Wrappers
  import opened RaftTypes
  import opened CompactLog
  import opened Protocol
  import opened StoreSpec
  import opened Cluster
  import opened Safety
  import opened Elections
  import opened Voting
  import opened Trails

  /** No node waits to be taken in. */
  ghost predicate AllMembers(c: Cluster) {
    forall j | j in c.servers :: !c.servers[j].raft.cfg.joining
  }

  /** No node has a later term. */
  ghost predicate Latest(c: Cluster, m: Id) {
    m in c.servers && forall j | j in c.servers :: c.servers[j].raft.term <= c.servers[m].raft.term
  }

  lemma {:induction false} SomeLatest(c: Cluster, ids: set<Id>) returns (m: Id)
    requires ids <= c.servers.Keys && ids != {}
    ensures m in ids && forall j | j in ids :: c.servers[j].raft.term <= c.servers[m].raft.term
    decreases |ids|
  {
    m :| m in ids;
    if ids != {m} {
      assert ids - {m} != {};
      var o := SomeLatest(c, ids - {m});
      m := if c.servers[o].raft.term > c.servers[m].raft.term then o else m;
    }
  }

  // ---- Nobody leads any more ----

  ghost function Leaders(c: Cluster): set<Id> {
    set j | j in c.servers && c.servers[j].raft.role == Leader
  }

  /** A leader that asks a node of a later term steps down. */
  lemma StepsDown(r: Run, id: Id, m: Id) returns (q: Run)
    requires IsRun(r) && id in Now(r).servers && m in Now(r).servers
    requires NodeOf(r, id).role == Leader && NodeOf(r, id).term < NodeOf(r, m).term
    ensures Onward(r, q) && Kept(Now(r), Now(q), {id}) && NodeOf(q, id) == BecomeFollower(NodeOf(r, id), NodeOf(r, m).term)
  {
    hide IsRun, Fit, BecomeFollower, RLog.LastIndex, RLog.Valid, WellFormed;
    var q1, req := Offers(r, id, m);
    var q2 := Heard(q1, req);
    q := ReplyHeard(q2, req, HandleAppend(NodeOf(q1, m), req).1);
    WayOn(r, q1, q2);
    WayOn(r, q2, q);
  }

  lemma {:induction false} AllStepDown(r: Run, m: Id) returns (q: Run)
    requires IsRun(r) && AllMembers(Now(r)) && Latest(Now(r), m)
    requires forall j | j in Leaders(Now(r)) :: NodeOf(r, j).term < NodeOf(r, m).term
    ensures Onward(r, q) && AllMembers(Now(q)) && Leaders(Now(q)) == {} && Now(q).servers.Keys == Now(r).servers.Keys
    decreases |Leaders(Now(r))|
  {
    hide IsRun, BecomeFollower, Prolongs, Kept, AllMembers;
    if Leaders(Now(r)) == {} {
      NoWay(r);
      q := r;
    } else {
      var id :| id in Leaders(Now(r));
      var p := StepsDown(r, id, m);
      FewerLead(Now(r), Now(p), id, m);
      q := AllStepDown(p, m);
      WayOn(r, p, q);
    }
  }

  lemma FewerLead(c: Cluster, d: Cluster, id: Id, m: Id)
    requires AllMembers(c) && Latest(c, m) && id in Leaders(c) && id != m && Kept(c, d, {id})
    requires forall j | j in Leaders(c) :: c.servers[j].raft.term < c.servers[m].raft.term
    requires d.servers[id].raft == BecomeFollower(c.servers[id].raft, c.servers[m].raft.term)
    ensures AllMembers(d) && Latest(d, m) && Leaders(d) == Leaders(c) - {id} && d.servers.Keys == c.servers.Keys
    ensures forall j | j in Leaders(d) :: d.servers[j].raft.term < d.servers[m].raft.term
  {
    hide BecomeFollower;
    BecomeFollowerFields(c.servers[id].raft, c.servers[m].raft.term);
  }

  // ---- All timers run out ----

  ghost function Awake(c: Cluster): set<Id> {
    set j | j in c.servers && c.servers[j].raft.recent
  }

  /** Nobody leads, nobody has heard of a leader lately, and everybody may campaign. */
  ghost predicate Resting(c: Cluster) {
    forall j | j in c.servers :: c.servers[j].raft.role != Leader && !c.servers[j].raft.recent && !c.servers[j].raft.cfg.joining
  }

  lemma {:induction false} AllRest(r: Run) returns (q: Run)
    requires IsRun(r) && AllMembers(Now(r)) && Leaders(Now(r)) == {}
    ensures Onward(r, q) && Resting(Now(q)) && Now(q).servers.Keys == Now(r).servers.Keys
    decreases |Awake(Now(r))|
  {
    hide IsRun, Prolongs, Kept, AllMembers, Resting, Leaders;
    if Awake(Now(r)) == {} {
      NoWay(r);
      q := r;
      NobodyAwake(Now(r));
    } else {
      var id :| id in Awake(Now(r));
      var p := Rests(r, id);
      FewerAwake(Now(r), Now(p), id);
      q := AllRest(p);
      WayOn(r, p, q);
    }
  }

  lemma NobodyAwake(c: Cluster)
    requires AllMembers(c) && Leaders(c) == {} && Awake(c) == {}
    ensures Resting(c)
  {
    forall j | j in c.servers
      ensures c.servers[j].raft.role != Leader && !c.servers[j].raft.recent
    {
      assert j !in Awake(c) && j !in Leaders(c);
    }
  }

  lemma FewerAwake(c: Cluster, d: Cluster, id: Id)
    requires AllMembers(c) && Leaders(c) == {} && id in Awake(c) && Kept(c, d, {id})
    requires d.servers[id] == c.servers[id].(raft := c.servers[id].raft.(recent := false))
    ensures AllMembers(d) && Leaders(d) == {} && Awake(d) == Awake(c) - {id} && d.servers.Keys == c.servers.Keys
  {
    forall j | j in d.servers
      ensures d.servers[j].raft.role != Leader
    {
      assert j !in Leaders(c);
    }
  }

  // ---- The one to stand ----

  /** `n`'s log is at least as up to date as `m`'s. */
  predicate AtLeast(n: Node, m: Node) {
    n.log.LastTerm() > m.log.LastTerm() || (n.log.LastTerm() == m.log.LastTerm() && n.log.LastIndex() >= m.log.LastIndex())
  }

  ghost predicate Best(c: Cluster, b: Id) {
    b in c.servers && forall j | j in c.servers :: AtLeast(c.servers[b].raft, c.servers[j].raft)
  }

  lemma SomeBest(r: Run) returns (b: Id)
    requires IsRun(r) && Now(r).servers != map[]
    ensures Best(Now(r), b)
  {
    hide IsRun, HandleVote, HandlePreVote, AtLeast;
    var c := Now(r);
    var nodes := set j | j in c.servers :: c.servers[j].raft;
    var some :| some in c.servers;
    var m := SomeLatest(c, c.servers.Keys);
    var t := c.servers[m].raft.term + 1;
    assert c.servers[some].raft in nodes;
    var best := SomeoneElectable(nodes, 0, t);
    b :| b in c.servers && c.servers[b].raft == best;
    forall j | j in c.servers
      ensures AtLeast(best, c.servers[j].raft)
    {
      var n := c.servers[j].raft;
      assert n in nodes;
      if n == best {
        SelfAtLeast(n);
      } else {
        VotedAtLeast(best, n, t);
      }
    }
  }

  lemma SelfAtLeast(n: Node)
    ensures AtLeast(n, n)
  {
  }

  lemma VotedAtLeast(best: Node, n: Node, t: nat)
    requires HandleVote(n, Ask(best, n.id, false, t, t)).1.granted
    ensures AtLeast(best, n)
  {
    hide HandleVote, RLog.LastIndex, RLog.LastTerm;
    VoteGrantedIff(n, Ask(best, n.id, false, t, t));
  }

  /** Asking a node of a later term, the best learns that term. */
  lemma Learns(r: Run, b: Id, m: Id) returns (q: Run)
    requires IsRun(r) && Resting(Now(r)) && Best(Now(r), b) && Latest(Now(r), m) && NodeOf(r, b).term < NodeOf(r, m).term
    ensures Onward(r, q) && Now(q).servers.Keys == Now(r).servers.Keys
    ensures Resting(Now(q)) && Best(Now(q), b) && Latest(Now(q), b)
  {
    hide IsRun, Prolongs, BecomeFollower, AtLeast;
    var e := LearnsTerm(r, b, m);
    q := Rests(e, b);
    WayOn(r, e, q);
    KeptOn(Now(r), Now(e), Now(q), {b}, {b});
    assert {b} + {b} == {b};
    BecomeFollowerFields(NodeOf(r, b).(recent := true), NodeOf(r, m).term);
    NewTerm(Now(r), Now(q), b, m);
  }

  lemma LearnsTerm(r: Run, b: Id, m: Id) returns (q: Run)
    requires IsRun(r) && b in Now(r).servers && m in Now(r).servers && NodeOf(r, b).term < NodeOf(r, m).term
    requires var n := NodeOf(r, b); n.role != Leader && !n.recent && !n.cfg.joining
    ensures Onward(r, q) && Kept(Now(r), Now(q), {b})
    ensures NodeOf(q, b) == BecomeFollower(NodeOf(r, b).(recent := true), NodeOf(r, m).term)
  {
    hide IsRun, HandlePreVote, BecomeFollower, Prolongs, RLog.LastIndex, RLog.LastTerm, RLog.Valid, Majority, ClusterSize, LeadsFit;
    var n, k := NodeOf(r, b).(recent := true), Now(r).calls;
    IsFit(r, b);
    TwoMembers(Now(r).servers.Keys, b, m);
    var q1 := RoundOpens(r, b);
    var req := Ask(n, m, true, k, n.term + 1);
    assert m in Peers(n);
    var q2 := Answers(q1, req);
    PreVoteGrantedIff(NodeOf(q1, m), req);
    q := PollCounted(q2, req, HandlePreVote(NodeOf(q1, m), req));
    WayOn(r, q1, q2);
    WayOn(r, q2, q);
  }

  lemma NewTerm(c: Cluster, d: Cluster, b: Id, m: Id)
    requires b in c.servers && b in d.servers && Resting(c) && Best(c, b) && Latest(c, m) && Kept(c, d, {b})
    requires c.servers[b].raft.term < c.servers[m].raft.term
    requires var n, k := c.servers[b].raft, d.servers[b].raft;
             k.role == Follower && !k.recent && k.cfg == n.cfg && k.log == n.log && k.term == c.servers[m].raft.term
    ensures Resting(d) && Best(d, b) && Latest(d, b)
  {
    hide AtLeast, Best, Resting;
    StillBest(c, d, b);
    StillResting(c, d, b);
  }

  lemma StillResting(c: Cluster, d: Cluster, b: Id)
    requires b in c.servers && b in d.servers && Resting(c) && Kept(c, d, {b})
    requires var k := d.servers[b].raft; k.role == Follower && !k.recent && k.cfg == c.servers[b].raft.cfg
    ensures Resting(d)
  {
  }

  lemma StillBest(c: Cluster, d: Cluster, b: Id)
    requires Best(c, b) && Kept(c, d, {b}) && d.servers[b].raft.log == c.servers[b].raft.log
    ensures Best(d, b)
  {
    hide AtLeast;
    forall j | j in d.servers
      ensures AtLeast(d.servers[b].raft, d.servers[j].raft)
    {
      SameLogAtLeast(c.servers[b].raft, d.servers[b].raft, c.servers[j].raft, d.servers[j].raft);
    }
  }

  lemma TwoMembers(ids: set<Id>, a: Id, b: Id)
    requires a in ids && b in ids && a != b
    ensures |ids| != 1
  {
    assert |ids - {a} - {b}| == |ids| - 2;
  }

  // ---- Its pre-vote round ----

  /** Round `k` of node `b` has these grants so far, and nobody will refuse. */
  ghost predicate Polling(c: Cluster, b: Id, k: nat, grants: set<Id>) {
    && b in c.servers && |c.servers| != 1
    && var n := c.servers[b].raft;
    && n.id == b && n.role != Leader && Peers(n) == c.servers.Keys - {b}
    && k in c.servers[b].rounds && c.servers[b].rounds[k] == PreRound(n.term, grants)
    && grants <= Peers(n) && 1 + |grants| < Majority(n)
    && (forall p | p in Peers(n) :: VoteRequest(Ask(n, p, true, k, n.term + 1)) in c.net)
    && (forall j | j in c.servers && j != b :: Willing(c.servers[j].raft, n))
  }

  predicate Willing(m: Node, n: Node) {
    m.role != Leader && !m.recent && m.term <= n.term && AtLeast(n, m)
  }

  /** Node `b` stands in an election, its requests are out, and nobody who has not voted will refuse. */
  ghost predicate Electing(c: Cluster, b: Id) {
    && b in c.servers && |c.servers| != 1
    && var n := c.servers[b].raft;
    && n.id == b && n.role == Candidate && Peers(n) == c.servers.Keys - {b}
    && n.votes <= Peers(n) && 1 + |n.votes| < Majority(n)
    && (forall p | p in Peers(n) :: VoteRequest(Ask(n, p, false, n.term, n.term)) in c.net)
    && (forall j | j in c.servers && j != b :: c.servers[j].raft.term <= n.term)
    && (forall j | j in c.servers && j != b && j !in n.votes :: c.servers[j].raft.term < n.term && AtLeast(n, c.servers[j].raft))
  }

  lemma Grants(m: Node, n: Node, k: nat)
    requires Willing(m, n)
    ensures HandlePreVote(m, Ask(n, m.id, true, k, n.term + 1)) == VoteResp(m.term, true)
  {
    hide HandlePreVote, RLog.LastIndex, RLog.LastTerm;
    PreVoteGrantedIff(m, Ask(n, m.id, true, k, n.term + 1));
  }

  lemma StillWilling(m: Node, n: Node)
    requires Willing(m, n)
    ensures AtLeast(BecomeCandidate(n), m) && m.term < BecomeCandidate(n).term
  {
  }

  /** A round in which nobody refuses leads to an election. */
  lemma {:induction false} RoundSucceeds(r: Run, b: Id, k: nat, grants: set<Id>) returns (q: Run)
    requires IsRun(r) && Polling(Now(r), b, k, grants)
    ensures Onward(r, q) && Electing(Now(q), b) && Now(q).servers.Keys == Now(r).servers.Keys
    decreases |Peers(NodeOf(r, b)) - grants|
  {
    hide IsRun, Prolongs, Majority, Polling, Electing;
    var p, e := RoundGains(r, b, k, grants);
    if 1 + |grants + {p}| >= Majority(NodeOf(r, b)) {
      q := e;
      RoundOver(Now(r), Now(e), b, k, grants);
    } else {
      RoundContinues(Now(r), Now(e), b, k, grants, p);
      SamePeersLess(NodeOf(r, b), grants, p);
      q := RoundSucceeds(e, b, k, grants + {p});
      WayOn(r, e, q);
    }
  }

  lemma SamePeersLess(n: Node, some: set<Id>, p: Id)
    requires p in Peers(n) && p !in some
    ensures |Peers(n) - (some + {p})| < |Peers(n) - some|
  {
    assert Peers(n) - (some + {p}) == Peers(n) - some - {p};
  }

  /** One more peer is asked and grants. */
  lemma RoundGains(r: Run, b: Id, k: nat, grants: set<Id>) returns (p: Id, q: Run)
    requires IsRun(r) && Polling(Now(r), b, k, grants)
    ensures b in Now(r).servers && Onward(r, q) && Kept(Now(r), Now(q), {b}) && p in Peers(NodeOf(r, b)) && p !in grants
    ensures var n := NodeOf(r, b);
            if 1 + |grants + {p}| >= Majority(n) then
              && NodeOf(q, b) == BecomeCandidate(n)
              && var m := BecomeCandidate(n); forall o | o in Peers(m) :: VoteRequest(Ask(m, o, false, m.term, m.term)) in Now(q).net
            else
              && NodeOf(q, b) == n && k in Now(q).servers[b].rounds
              && Now(q).servers[b].rounds[k] == PreRound(n.term, grants + {p})
  {
    hide IsRun, HandlePreVote, Prolongs, RLog.LastIndex, RLog.LastTerm, Majority, ClusterSize, AtLeast, Willing, BecomeFollower;
    var n := NodeOf(r, b);
    p := NotYet(n, grants);
    NodeNamed(r, p);
    Grants(NodeOf(r, p), n, k);
    WillingTerm(NodeOf(r, p), n);
    var req := Ask(n, p, true, k, n.term + 1);
    var q1 := Answers(r, req);
    q := PollCounted(q1, req, VoteResp(NodeOf(r, p).term, true));
    WayOn(r, q1, q);
  }

  lemma NodeNamed(r: Run, id: Id)
    requires IsRun(r) && id in Now(r).servers
    ensures NodeOf(r, id).id == id && NodeOf(r, id).log.Valid()
  {
    hide IsRun, LeadsFit, Majority, ClusterSize;
    IsFit(r, id);
  }

  lemma RoundContinues(c: Cluster, d: Cluster, b: Id, k: nat, grants: set<Id>, p: Id)
    requires Polling(c, b, k, grants) && Kept(c, d, {b}) && d.servers[b].raft == c.servers[b].raft && p in Peers(c.servers[b].raft)
    requires k in d.servers[b].rounds && d.servers[b].rounds[k] == PreRound(c.servers[b].raft.term, grants + {p})
    requires 1 + |grants + {p}| < Majority(c.servers[b].raft)
    ensures Polling(d, b, k, grants + {p})
  {
    hide Majority, Willing, RLog.LastIndex, RLog.LastTerm;
  }

  lemma RoundOver(c: Cluster, d: Cluster, b: Id, k: nat, grants: set<Id>)
    requires Polling(c, b, k, grants) && Kept(c, d, {b}) && d.servers[b].raft == BecomeCandidate(c.servers[b].raft)
    requires var m := d.servers[b].raft; forall p | p in Peers(m) :: VoteRequest(Ask(m, p, false, m.term, m.term)) in d.net
    ensures Electing(d, b)
  {
    hide Majority, Willing, AtLeast, RLog.LastIndex, RLog.LastTerm;
    var n := c.servers[b].raft;
    SameSize(n, BecomeCandidate(n));
    Others(c.servers.Keys, b);
    SomeMajority(n);
    forall j | j in d.servers && j != b
      ensures d.servers[j].raft.term < d.servers[b].raft.term && AtLeast(d.servers[b].raft, d.servers[j].raft)
    {
      StillWilling(c.servers[j].raft, n);
    }
  }

  lemma WillingTerm(m: Node, n: Node)
    requires Willing(m, n)
    ensures m.term <= n.term
  {
  }

  /** A cluster of more than one needs another's vote. */
  lemma SomeMajority(n: Node)
    requires Peers(n) != {}
    ensures Majority(n) >= 2
  {
  }

  /** Short of a majority, some peer is missing. */
  lemma NotYet(n: Node, some: set<Id>) returns (p: Id)
    requires some <= Peers(n) && 1 + |some| < Majority(n)
    ensures p in Peers(n) && p !in some
  {
    SubsetSize(some, Peers(n));
    assert Peers(n) - some != {} by {
      assert |Peers(n) - some| == |Peers(n)| - |some|;
    }
    p :| p in Peers(n) && p !in some;
  }

  // ---- Its election ----

  lemma VotesFor(m: Node, n: Node)
    requires m.term < n.term && AtLeast(n, m)
    ensures HandleVote(m, Ask(n, m.id, false, n.term, n.term)).1 == VoteResp(n.term, true)
    ensures HandleVote(m, Ask(n, m.id, false, n.term, n.term)).0.term == n.term
  {
    hide HandleVote, RLog.LastIndex, RLog.LastTerm;
    VoteGrantedIff(m, Ask(n, m.id, false, n.term, n.term));
  }

  lemma CountsVote(n: Node, p: Id)
    requires n.log.Valid() && n.role == Candidate
    ensures var m := OnVoteResp(n, Ask(n, p, false, n.term, n.term), VoteResp(n.term, true));
            && m.id == n.id && m.term == n.term
            && if 1 + |n.votes + {p}| >= Majority(n) then m.role == Leader else m == n.(votes := n.votes + {p})
  {
    hide Majority, RLog.LastIndex, RLog.LastTerm, CommitUpTo;
    SameSize(n, n.(votes := n.votes + {p}));
  }

  /** `id` leads, and no node has a later term. */
  ghost predicate Reigns(c: Cluster, id: Id) {
    id in c.servers && c.servers[id].raft.role == Leader && Latest(c, id)
  }

  lemma {:induction false} ElectionSucceeds(r: Run, b: Id) returns (q: Run)
    requires IsRun(r) && Electing(Now(r), b)
    ensures Onward(r, q) && Reigns(Now(q), b) && Now(q).servers.Keys == Now(r).servers.Keys
    decreases |Peers(NodeOf(r, b)) - NodeOf(r, b).votes|
  {
    hide IsRun, Prolongs, Majority, Electing, Reigns;
    var p, e := ElectionGains(r, b);
    var n := NodeOf(r, b);
    if 1 + |n.votes + {p}| >= Majority(n) {
      q := e;
      ElectionOver(Now(r), Now(e), b, p);
    } else {
      ElectionContinues(Now(r), Now(e), b, p);
      SamePeersLess(n, n.votes, p);
      q := ElectionSucceeds(e, b);
      WayOn(r, e, q);
    }
  }

  /** One more peer is asked and votes. */
  lemma ElectionGains(r: Run, b: Id) returns (p: Id, q: Run)
    requires IsRun(r) && Electing(Now(r), b)
    ensures b in Now(r).servers && p in Now(r).servers && Onward(r, q) && Kept(Now(r), Now(q), {b, p})
    ensures var n := NodeOf(r, b);
            && p in Peers(n) && p !in n.votes && NodeOf(q, p).term == n.term && NodeOf(q, b).term == n.term
            && if 1 + |n.votes + {p}| >= Majority(n) then NodeOf(q, b).role == Leader else NodeOf(q, b) == n.(votes := n.votes + {p})
  {
    hide IsRun, HandleVote, OnVoteResp, Prolongs, RLog.LastIndex, RLog.LastTerm, RLog.Valid, Majority, ClusterSize, AtLeast;
    var n := NodeOf(r, b);
    p := NotYet(n, n.votes);
    NodeNamed(r, p);
    VotesFor(NodeOf(r, p), n);
    var req := Ask(n, p, false, n.term, n.term);
    var q1 := Answers(r, req);
    q := VoteCounted(q1, req, VoteResp(n.term, true));
    WayOn(r, q1, q);
    NodeNamed(r, b);
    CountsVote(n, p);
  }

  lemma ElectionContinues(c: Cluster, d: Cluster, b: Id, p: Id)
    requires Electing(c, b) && p in Peers(c.servers[b].raft) && Kept(c, d, {b, p}) && p in d.servers && b in d.servers
    requires var n := c.servers[b].raft;
             d.servers[b].raft == n.(votes := n.votes + {p}) && d.servers[p].raft.term == n.term && 1 + |n.votes + {p}| < Majority(n)
    ensures Electing(d, b) && Peers(d.servers[b].raft) == Peers(c.servers[b].raft)
  {
    hide Majority, AtLeast, RLog.LastIndex, RLog.LastTerm, Kept;
    SameSize(c.servers[b].raft, d.servers[b].raft);
    StillUnvoted(c, d, b, p);
    StillAsked(c, d, b, p);
  }

  lemma StillAsked(c: Cluster, d: Cluster, b: Id, p: Id)
    requires b in c.servers && Kept(c, d, {b, p}) && b in d.servers && p in d.servers
    requires var n := c.servers[b].raft;
             && (forall o | o in Peers(n) :: VoteRequest(Ask(n, o, false, n.term, n.term)) in c.net)
             && (forall j | j in c.servers && j != b :: c.servers[j].raft.term <= n.term)
             && d.servers[b].raft == n.(votes := n.votes + {p}) && d.servers[p].raft.term == n.term
    ensures var m := d.servers[b].raft;
            && (forall o | o in Peers(m) :: VoteRequest(Ask(m, o, false, m.term, m.term)) in d.net)
            && (forall j | j in d.servers && j != b :: d.servers[j].raft.term <= m.term) && d.servers.Keys == c.servers.Keys
  {
    hide RLog.LastIndex, RLog.LastTerm;
    var n, m := c.servers[b].raft, d.servers[b].raft;
    forall o | o in Peers(m)
      ensures VoteRequest(Ask(m, o, false, m.term, m.term)) in d.net
    {
      assert o in Peers(n) && Ask(m, o, false, m.term, m.term) == Ask(n, o, false, n.term, n.term);
    }
  }

  lemma StillUnvoted(c: Cluster, d: Cluster, b: Id, p: Id)
    requires b in c.servers && Kept(c, d, {b, p}) && b in d.servers
    requires forall j | j in c.servers && j != b && j !in c.servers[b].raft.votes ::
               c.servers[j].raft.term < c.servers[b].raft.term && AtLeast(c.servers[b].raft, c.servers[j].raft)
    requires d.servers[b].raft == c.servers[b].raft.(votes := c.servers[b].raft.votes + {p})
    ensures forall j | j in d.servers && j != b && j !in d.servers[b].raft.votes ::
              d.servers[j].raft.term < d.servers[b].raft.term && AtLeast(d.servers[b].raft, d.servers[j].raft)
  {
    hide AtLeast;
    forall j | j in d.servers && j != b && j !in d.servers[b].raft.votes
      ensures d.servers[j].raft.term < d.servers[b].raft.term && AtLeast(d.servers[b].raft, d.servers[j].raft)
    {
      SameLogAtLeast(c.servers[b].raft, d.servers[b].raft, c.servers[j].raft, d.servers[j].raft);
    }
  }

  lemma ElectionOver(c: Cluster, d: Cluster, b: Id, p: Id)
    requires Electing(c, b) && Kept(c, d, {b, p}) && p in d.servers && b in d.servers && d.servers[b].raft.role == Leader
    requires d.servers[p].raft.term == d.servers[b].raft.term == c.servers[b].raft.term
    ensures Reigns(d, b)
  {
    hide Majority, AtLeast, RLog.LastIndex, RLog.LastTerm;
  }

  lemma SameLogAtLeast(n: Node, m: Node, o: Node, k: Node)
    requires m.log == n.log && k.log == o.log && AtLeast(n, o)
    ensures AtLeast(m, k)
  {
  }

  /** Somebody stands, and is elected. */
  lemma BestWins(r: Run, b: Id) returns (q: Run)
    requires IsRun(r) && Resting(Now(r)) && Best(Now(r), b) && Latest(Now(r), b)
    ensures Onward(r, q) && Reigns(Now(q), b) && Now(q).servers.Keys == Now(r).servers.Keys
  {
    hide IsRun, Prolongs, RLog.LastIndex, RLog.LastTerm, Majority, ClusterSize, AtLeast, Electing, Polling, RLog.Valid, LeadsFit;
    if |Now(r).servers| == 1 {
      q := LeadsAlone(r, b);
      OnlyOne(Now(r).servers.Keys, b);
    } else {
      var p := RoundOpens(r, b);
      IsFit(r, b);
      NobodyRefuses(Now(r), Now(p), b, Now(r).calls);
      var e := RoundSucceeds(p, b, Now(r).calls, {});
      q := ElectionSucceeds(e, b);
      WayOn(r, p, e);
      WayOn(r, e, q);
    }
  }

  lemma NobodyRefuses(c: Cluster, d: Cluster, b: Id, k: nat)
    requires b in c.servers && b in d.servers && Resting(c) && Best(c, b) && Latest(c, b) && |c.servers| != 1 && Kept(c, d, {b})
    requires Peers(c.servers[b].raft) == c.servers.Keys - {b} && c.servers[b].raft.id == b
    requires var n := d.servers[b].raft;
             && n == c.servers[b].raft.(recent := true) && k in d.servers[b].rounds && d.servers[b].rounds[k] == PreRound(n.term, {})
             && forall p | p in Peers(n) :: VoteRequest(Ask(n, p, true, k, n.term + 1)) in d.net
    ensures Polling(d, b, k, {})
  {
    hide RLog.LastIndex, RLog.LastTerm, Majority, ClusterSize, AtLeast, Willing, Best, Latest;
    var n := d.servers[b].raft;
    SameSize(c.servers[b].raft, n);
    Others(c.servers.Keys, b);
    SomeMajority(n);
    AllWilling(c, d, b);
  }

  lemma AllWilling(c: Cluster, d: Cluster, b: Id)
    requires b in c.servers && b in d.servers && Resting(c) && Best(c, b) && Latest(c, b) && Kept(c, d, {b})
    requires d.servers[b].raft == c.servers[b].raft.(recent := true)
    ensures forall j | j in d.servers && j != b :: Willing(d.servers[j].raft, d.servers[b].raft)
  {
    hide AtLeast;
    var n := d.servers[b].raft;
    forall j | j in d.servers && j != b
      ensures Willing(d.servers[j].raft, n)
    {
      SameLogAtLeast(c.servers[b].raft, n, c.servers[j].raft, d.servers[j].raft);
    }
  }

  lemma OnlyOne(ids: set<Id>, b: Id)
    requires |ids| == 1 && b in ids
    ensures ids == {b}
  {
    assert |ids - {b}| == 0;
  }

  lemma Others(ids: set<Id>, b: Id)
    requires |ids| != 1 && b in ids
    ensures ids - {b} != {}
  {
    assert |ids - {b}| == |ids| - 1;
  }

  /**
    From every reachable state of a cluster whose nodes are all members, some calm way
    leads to a leader of the latest term.
   */
  lemma SomeoneLeads(r: Run) returns (q: Run, id: Id)
    requires IsRun(r) && Now(r).servers != map[] && AllMembers(Now(r))
    ensures Onward(r, q) && Reigns(Now(q), id) && Now(q).servers.Keys == Now(r).servers.Keys
  {
    hide IsRun, Prolongs, AtLeast;
    var m := SomeLatest(Now(r), Now(r).servers.Keys);
    if id' :| id' in Leaders(Now(r)) && NodeOf(r, id').term == NodeOf(r, m).term {
      NoWay(r);
      q, id := r, id';
    } else {
      var p := AllStepDown(r, m);
      var e := AllRest(p);
      WayOn(r, p, e);
      assert Now(e).servers != map[];
      id := SomeBest(e);
      var l := SomeLatest(Now(e), Now(e).servers.Keys);
      var f := e;
      NoWay(e);
      if NodeOf(e, id).term < NodeOf(e, l).term {
        f := Learns(e, id, l);
      }
      WayOn(r, e, f);
      q := BestWins(f, id);
      WayOn(r, f, q);
    }
  }
}

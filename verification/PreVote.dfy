/**
  Pre-vote (section 9.6 of Ongaro's dissertation): a round that a healthy majority
  answers ends without an election, so a node cut off for a while cannot drive the
  cluster into a new term when it comes back.
 */
module PreVote {
  import opened Wrappers
  import opened RaftTypes
  import opened CompactLog
  import opened Protocol
  import opened Cluster
  import opened Simulation
  import opened Safety
  import C = Consensus

  /** The leader itself, or a follower that has heard from one since its timer was reset. */
  predicate Healthy(n: Node) {
    n.role == Leader || (n.leaderId.Some? && n.recent)
  }

  /** A message of pre-vote round `k` of node `id`. */
  predicate OfRound(req: VoteReq, id: Id, k: nat) {
    req.preVote && req.from == id && req.round == k
  }

  /** Whenever a member of `q` answers a request of the round, it is healthy. */
  ghost predicate HealthyAnswers(r: Run, id: Id, k: nat, q: set<Id>) {
    forall i | 0 <= i < |r.actions| :: HealthyAnswer(r, i, id, k, q)
  }

  ghost predicate HealthyAnswer(r: Run, i: nat, id: Id, k: nat, q: set<Id>)
    requires i < |r.actions|
  {
    var a := r.actions[i];
    a.ReceiveVoteRequest? && OfRound(a.vreq, id, k) && a.vreq.to in q && Present(r, i, a.vreq.to) ==> Healthy(NodeAt(r, i, a.vreq.to))
  }

  // ---- What the round has gathered ----

  predicate Stingy(m: Msg, id: Id, k: nat, q: set<Id>) {
    m.VoteReply? && OfRound(m.vreq, id, k) && m.vresp.granted ==> m.vreq.to !in q
  }

  /** The members of `q` have granted nothing. */
  ghost predicate Denied(c: Cluster, id: Id, k: nat, q: set<Id>) {
    && (forall m | m in c.net :: Stingy(m, id, k, q))
    && (id in c.servers && k in c.servers[id].rounds ==> c.servers[id].rounds[k].grants <= c.servers.Keys - {id} - q)
  }

  /** The step sends no vote reply and leaves the round alone, or drops or begins it. */
  ghost predicate Aside(c: Cluster, d: Cluster, id: Id, k: nat) {
    && d.servers.Keys == c.servers.Keys
    && (forall m | m in d.net && m.VoteReply? :: m in c.net)
    && (id in d.servers && k in d.servers[id].rounds ==>
          d.servers[id].rounds[k].grants == {} || (k in c.servers[id].rounds && d.servers[id].rounds[k] == c.servers[id].rounds[k]))
  }

  lemma AsideDenied(c: Cluster, d: Cluster, id: Id, k: nat, q: set<Id>)
    requires Aside(c, d, id, k) && Denied(c, id, k, q)
    ensures Denied(d, id, k, q)
  {
  }

  lemma UpdateAside(c: Cluster, j: Id, s: Server, ms: set<Msg>, id: Id, k: nat)
    requires j in c.servers && (s.rounds == c.servers[j].rounds || s.rounds == map[])
    requires forall m | m in ms :: !m.VoteReply?
    ensures Aside(c, Update(c, j, s), id, k) && Aside(c, Send(Update(c, j, s), ms), id, k)
  {
  }

  lemma StandAside(c: Cluster, j: Id, id: Id, k: nat)
    requires j in c.servers && c.servers[j].raft.log.Valid()
    ensures Aside(c, Stand(c, j), id, k)
  {
  }

  lemma AsideTwice(c: Cluster, d: Cluster, e: Cluster, id: Id, k: nat)
    requires Aside(c, d, id, k) && Aside(d, e, id, k)
    ensures Aside(c, e, id, k)
  {
  }

  lemma RequestsOnly(n: Node, round: nat)
    ensures forall m | m in VoteRequests(n, true, round, n.term + 1) :: !m.VoteReply?
  {
  }

  /** A round that begins has gathered nothing. */
  lemma RoundAside(c: Cluster, j: Id, t: Server, ms: set<Msg>, id: Id, k: nat)
    requires j in c.servers && t.rounds == c.servers[j].rounds[c.calls := PreRound(t.raft.term, {})]
    requires forall m | m in ms :: !m.VoteReply?
    ensures Aside(c, Send(Update(c, j, t).(calls := c.calls + 1), ms), id, k)
  {
  }

  lemma CampaignAside(c: Cluster, j: Id, id: Id, k: nat)
    requires j in c.servers && c.servers[j].raft.log.Valid()
    ensures Aside(c, StepCampaign(c, j), id, k)
  {
    hide Stand, RLog.Valid, VoteRequests, Aside, ClusterSize;
    var s := c.servers[j].(raft := c.servers[j].raft.(recent := true));
    var t := s.(rounds := s.rounds[c.calls := PreRound(s.raft.term, {})]);
    StandAside(Update(c, j, s), j, id, k);
    UpdateAside(c, j, s, {}, id, k);
    AsideTwice(c, Update(c, j, s), Stand(Update(c, j, s), j), id, k);
    RoundAside(c, j, t, VoteRequests(s.raft, true, c.calls, s.raft.term + 1), id, k) by { RequestsOnly(s.raft, c.calls); }
  }

  lemma AppendAside(c: Cluster, a: Action, id: Id, k: nat)
    requires Sound(c) && Enabled(c, a) && (a.ReceiveAppendRequest? || a.ReceiveAppendReply? || a.Replicate?)
    ensures Aside(c, StepNetwork(c, a), id, k)
  {
    hide HandleAppend, OnAppendResp, BecomeFollower, BuildAppend, RLog.Valid, WellFormed;
  }

  lemma ReadAside(c: Cluster, a: Action, id: Id, k: nat)
    requires Enabled(c, a) && (a.ReadCapture? || a.ReadConfirm? || a.ReadReturn?)
    ensures Sound(c) ==> Aside(c, Step(c, a), id, k)
  {
    hide Sound, MayReturn, Majority;
  }

  lemma ApplyAside(c: Cluster, a: Action, id: Id, k: nat)
    requires Sound(c) && Enabled(c, a) && (a.ApplyTake? || a.ApplyRun? || a.ApplyFinish?)
    ensures Aside(c, Step(c, a), id, k)
  {
    hide Sound, RLog.Valid, RLog.At, StoreSpec.ApplyEntry, Deliver;
  }

  lemma LocalAside(c: Cluster, a: Action, id: Id, k: nat)
    requires Sound(c) && Enabled(c, a) && !Networked(a)
    ensures Aside(c, Step(c, a), id, k)
  {
    hide Sound, Aside, StepCampaign, Propose, RLog.Valid, MayReturn, Restart, StepReadCapture, StepReadConfirm, StepReadReturn,
         StepApplyTake, StepApplyRun, StepApplyFinish;
    SoundLogs(c);
    var n := c.servers[a.id].raft;
    if a.Campaign? {
      CampaignAside(c, a.id, id, k);
    } else if a.ReadCapture? || a.ReadConfirm? || a.ReadReturn? {
      ReadAside(c, a, id, k);
    } else if a.ApplyTake? || a.ApplyRun? || a.ApplyFinish? {
      ApplyAside(c, a, id, k);
    } else {
      UpdateAside(c, a.id, Step(c, a).servers[a.id], {}, id, k);
      SameAside(c, Update(c, a.id, Step(c, a).servers[a.id]), Step(c, a), id, k);
    }
  }

  lemma SameAside(c: Cluster, d: Cluster, e: Cluster, id: Id, k: nat)
    requires Aside(c, d, id, k) && e.servers == d.servers && e.net == d.net
    ensures Aside(c, e, id, k)
  {
  }

  // ---- Answers and their terms ----

  /** A healthy node refuses, and answers with its own term; asking changes nothing. */
  lemma HealthyRefuses(n: Node, req: VoteReq)
    ensures Healthy(n) ==> !HandlePreVote(n, req).granted
    ensures HandlePreVote(n, req).term == n.term
  {
  }

  lemma AskedDenied(c: Cluster, req: VoteReq, id: Id, k: nat, q: set<Id>)
    requires req.to in c.servers && Denied(c, id, k, q)
    requires OfRound(req, id, k) && req.to in q ==> Healthy(c.servers[req.to].raft)
    ensures Denied(StepVoteRequest(c, req), id, k, q)
  {
    hide HandlePreVote;
    HealthyRefuses(c.servers[req.to].raft, req);
  }

  lemma CountedDenied(c: Cluster, req: VoteReq, resp: VoteResp, id: Id, k: nat, q: set<Id>)
    requires req.from in c.servers && c.servers[req.from].raft.log.Valid() && Denied(c, id, k, q)
    requires VoteReply(req, resp) in c.net && req.to in c.servers && req.to != req.from
    ensures Denied(StepVoteReply(c, req, resp), id, k, q)
  {
    hide Stand, OnVoteResp, BecomeFollower, Majority, RLog.Valid;
    var s := c.servers[req.from];
    assert Stingy(VoteReply(req, resp), id, k, q);
    if req.preVote && req.round in s.rounds {
      var d := Update(c, req.from, s.(rounds := s.rounds[req.round := PreRound(s.raft.term, s.rounds[req.round].grants + {req.to})]));
      StandAside(d, req.from, id, k);
      if s.raft.term == s.rounds[req.round].term && resp.granted {
        AsideDenied(d, Stand(d, req.from), id, k, q);
      }
    }
  }

  /** While the members of `q` are healthy whenever they answer, they grant nothing. */
  lemma {:induction false} NothingGranted(r: Run, i: nat, id: Id, k: nat, q: set<Id>)
    requires IsRun(r) && HealthyAnswers(r, id, k, q) && i < |r.states|
    ensures Denied(r.states[i], id, k, q)
    decreases i
  {
    hide IsRun, Sound, StepVoteRequest, StepVoteReply, Denied, Step, Healthy, MsgOk;
    RunLength(r);
    if i == 0 {
      NothingAtFirst(r, id, k, q);
    } else {
      NothingGranted(r, i - 1, id, k, q);
      StepOf(r, i - 1);
      assert HealthyAnswer(r, i - 1, id, k, q);
      StepDenied(r, i - 1, id, k, q);
    }
  }

  lemma NothingAtFirst(r: Run, id: Id, k: nat, q: set<Id>)
    requires IsRun(r)
    ensures Denied(r.states[0], id, k, q)
  {
    assert id in r.states[0].servers ==> Newborn(r.states[0].servers[id], r.states[0].servers.Keys);
  }

  lemma StepDenied(r: Run, i: nat, id: Id, k: nat, q: set<Id>)
    requires IsRun(r) && i < |r.actions| && |r.states| == |r.actions| + 1
    requires Sound(r.states[i]) && Enabled(r.states[i], r.actions[i]) && r.states[i + 1] == Step(r.states[i], r.actions[i])
    requires HealthyAnswer(r, i, id, k, q) && Denied(r.states[i], id, k, q)
    ensures Denied(r.states[i + 1], id, k, q)
  {
    hide IsRun, Sound, StepVoteRequest, StepVoteReply, StepReplicate, StepAppendRequest, StepAppendReply, Denied, Aside, Healthy, RLog.Valid, WellFormed;
    var c, a := r.states[i], r.actions[i];
    SoundLogs(c);
    if !Networked(a) {
      LocalAside(c, a, id, k);
      AsideDenied(c, Step(c, a), id, k, q);
    } else if a.ReceiveVoteRequest? {
      AskedDenied(c, a.vreq, id, k, q);
    } else if a.ReceiveVoteReply? {
      ReplyEnds(r, i, a.vreq, a.vresp);
      CountedDenied(c, a.vreq, a.vresp, id, k, q);
    } else {
      AppendAside(c, a, id, k);
      AsideDenied(c, Step(c, a), id, k, q);
    }
  }

  /** A reply runs between two different servers. */
  lemma ReplyEnds(r: Run, i: nat, req: VoteReq, resp: VoteResp)
    requires IsRun(r) && i < |r.states| && VoteReply(req, resp) in r.states[i].net
    ensures req.from in r.states[i].servers && req.to in r.states[i].servers && req.to != req.from
  {
    hide IsRun, Related, Follows;
    var hs, caps := RunSimulated(r);
    RelatedAt(r, hs, caps, i);
    MessageOf(hs[i], caps[i], r.states[i], VoteReply(req, resp));
  }

  lemma RelatedAt(r: Run, hs: seq<History>, caps: seq<map<nat, History>>, i: nat)
    requires |hs| == |caps| == |r.states| && Follows(r, hs, caps) && i < |r.states|
    ensures Related(hs[i], caps[i], r.states[i])
  {
    hide Related, Later;
  }

  // ---- Terms ----

  lemma KeysStay(c: Cluster, a: Action)
    requires Sound(c) && Enabled(c, a)
    ensures Step(c, a).servers.Keys == c.servers.Keys
  {
    hide Sound, StepNetwork, StartElection, Propose, Majority, StoreSpec.ApplyEntry, RLog.Valid, RLog.At, Crashed, Halted, MayReturn,
         VoteRequests, BuildProbe, MayCampaign, ClusterSize, Reaches;
    if Networked(a) {
      NetworkKeysStay(c, a);
    }
  }

  lemma NetworkKeysStay(c: Cluster, a: Action)
    requires Sound(c) && Enabled(c, a) && Networked(a)
    ensures StepNetwork(c, a).servers.Keys == c.servers.Keys
  {
    hide Sound, HandleVote, HandlePreVote, OnVoteResp, StartElection, HandleAppend, OnAppendResp, BuildAppend, BecomeFollower, Majority,
         RLog.Valid, VoteRequests, WellFormed;
  }

  lemma {:induction false} SameServers(r: Run, i: nat, j: nat)
    requires IsRun(r) && i <= j < |r.states|
    ensures r.states[i].servers.Keys == r.states[j].servers.Keys
    decreases j
  {
    hide IsRun, Sound, Enabled, Step;
    RunLength(r);
    if i < j {
      SameServers(r, i, j - 1);
      StepOf(r, j - 1);
      KeysStay(r.states[j - 1], r.actions[j - 1]);
    }
  }

  /** A node's term never goes back, not even over a restart. */
  lemma TermsGrow(r: Run, i: nat, j: nat, id: Id)
    requires IsRun(r) && i <= j < |r.states| && Present(r, i, id)
    ensures Present(r, j, id) && NodeAt(r, i, id).term <= NodeAt(r, j, id).term
  {
    hide IsRun, Follows, ServerOk, C.Inv, C.MemberOk;
    var hs, caps := RunSimulated(r);
    NodeFacts(r, hs, caps, i, j, id);
    SameServers(r, i, j);
    NodeFacts(r, hs, caps, j, j, id);
  }

  /** A vote reply enters the network with its sender's term. */
  lemma NewReply(c: Cluster, a: Action, m: Msg)
    requires Sound(c) && Enabled(c, a) && m in Step(c, a).net && m.VoteReply? && m !in c.net
    ensures m.vreq.to in Step(c, a).servers && m.vresp.term == Step(c, a).servers[m.vreq.to].raft.term
  {
    hide Sound, StepVoteRequest, StepVoteReply, Aside, RLog.Valid, WellFormed, StepReplicate, StepAppendRequest, StepAppendReply;
    SoundLogs(c);
    if !Networked(a) {
      LocalAside(c, a, m.vreq.from, 0);
      NoneNew(c, Step(c, a), m.vreq.from, 0);
    } else if a.ReceiveVoteRequest? {
      VoteRequestReply(c, a.vreq, m);
    } else if a.ReceiveVoteReply? {
      VoteReplyNet(c, a.vreq, a.vresp);
    } else {
      AppendAside(c, a, m.vreq.from, 0);
      NoneNew(c, Step(c, a), m.vreq.from, 0);
    }
  }

  lemma NoneNew(c: Cluster, d: Cluster, id: Id, k: nat)
    requires Aside(c, d, id, k)
    ensures forall m | m in d.net && m.VoteReply? :: m in c.net
  {
  }

  lemma VoteRequestReply(c: Cluster, req: VoteReq, m: Msg)
    requires req.to in c.servers && m in StepVoteRequest(c, req).net && m !in c.net
    ensures m.VoteReply? && m.vreq == req && req.to in StepVoteRequest(c, req).servers
    ensures m.vresp.term == StepVoteRequest(c, req).servers[req.to].raft.term
  {
  }

  lemma VoteReplyNet(c: Cluster, req: VoteReq, resp: VoteResp)
    requires req.from in c.servers && c.servers[req.from].raft.log.Valid()
    ensures forall m | m in StepVoteReply(c, req, resp).net && m.VoteReply? :: m in c.net
  {
  }

  /** No reply carries a term its sender has not reached. */
  lemma {:induction false} RepliedTerm(r: Run, i: nat, req: VoteReq, resp: VoteResp)
    requires IsRun(r) && i < |r.states| && VoteReply(req, resp) in r.states[i].net
    ensures Present(r, i, req.to) && resp.term <= NodeAt(r, i, req.to).term
    decreases i
  {
    hide IsRun, Sound, Enabled, Step;
    RunLength(r);
    if i == 0 {
      NoneAtFirst(r);
    } else {
      StepOf(r, i - 1);
      if VoteReply(req, resp) in r.states[i - 1].net {
        RepliedTerm(r, i - 1, req, resp);
        TermsGrow(r, i - 1, i, req.to);
      } else {
        NewReply(r.states[i - 1], r.actions[i - 1], VoteReply(req, resp));
      }
    }
  }

  lemma NoneAtFirst(r: Run)
    requires IsRun(r)
    ensures r.states[0].net == {}
  {
  }

  // ---- No election ----

  /** Too few are left to grant: with a majority refusing, the rest and the requester are no majority. */
  lemma RestTooFew(ids: set<Id>, id: Id, q: set<Id>, grants: set<Id>)
    requires IsQuorum(q, ids) && id in ids && id !in q && grants <= ids - {id} - q
    ensures 1 + |grants| < |ids| / 2 + 1
  {
    SubsetSize(grants + {id}, ids - q);
    assert ids == (ids - q) + q;
    assert |ids| == |ids - q| + |q|;
  }

  /** The node is as it was, or follows because it learned of a later term. */
  ghost predicate OnlyLearns(n: Node, m: Node, term: nat) {
    m == n || (term > n.term && m == BecomeFollower(n, term))
  }

  /**
    Whatever replies to a round reach its node, if a majority without it is healthy
    whenever it answers, the node does not start an election: it stays as it is, or
    steps down to a later term that the answering peer has reached already.
   */
  lemma HealthyMajorityStopsRound(r: Run, i: nat, req: VoteReq, resp: VoteResp, q: set<Id>)
    requires IsRun(r) && i < |r.actions| && r.actions[i] == ReceiveVoteReply(req, resp) && req.preVote
    requires IsQuorum(q, r.states[i].servers.Keys) && req.from !in q
    requires HealthyAnswers(r, req.from, req.round, q)
    ensures i + 1 < |r.states| && Present(r, i, req.from) && Present(r, i + 1, req.from) && Present(r, i, req.to)
    ensures OnlyLearns(NodeAt(r, i, req.from), NodeAt(r, i + 1, req.from), resp.term)
    ensures NodeAt(r, i + 1, req.from).term <= Max(NodeAt(r, i, req.from).term, NodeAt(r, i, req.to).term)
    ensures forall id | Present(r, i, id) && id != req.from :: Present(r, i + 1, id) && NodeAt(r, i + 1, id) == NodeAt(r, i, id)
  {
    hide IsRun, Sound, Stand, BecomeFollower, Healthy, RLog.Valid, HealthyAnswers;
    RunLength(r);
    StepOf(r, i);
    SoundLogs(r.states[i]);
    ReplyEnds(r, i, req, resp);
    RepliedTerm(r, i, req, resp);
    NothingGranted(r, i + 1, req.from, req.round, q);
    NothingGranted(r, i, req.from, req.round, q);
    var c := r.states[i];
    var s := c.servers[req.from];
    FollowerTerm(s.raft, resp.term);
    ClusterKeys(r, i, req.from);
    if req.round in s.rounds {
      assert Stingy(VoteReply(req, resp), req.from, req.round, q);
      if resp.granted {
        RestTooFew(c.servers.Keys, req.from, q, s.rounds[req.round].grants + {req.to});
      }
    }
  }

  lemma FollowerTerm(n: Node, t: nat)
    ensures BecomeFollower(n, t).term == Max(n.term, t)
  {
  }

  lemma ClusterKeys(r: Run, i: nat, id: Id)
    requires IsRun(r) && Present(r, i, id)
    ensures Majority(NodeAt(r, i, id)) == |r.states[i].servers| / 2 + 1
  {
    hide IsRun, Follows, ServerOk, C.Inv, C.MemberOk, C.Extends;
    var hs, caps := RunSimulated(r);
    NodeFacts(r, hs, caps, i, i, id);
    Parts(hs[i], ContextOf(r.states[i], caps[i]), r.states[i].servers[id]);
    OthersSize(r.states[i].servers.Keys, id);
  }
}

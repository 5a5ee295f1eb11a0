/**
  That a leader holds nothing back and forgets nothing: in every reachable state each
  leader has committed all that a majority is known to hold of its own term, and while
  it leads what it knows its peers to hold only grows.
 */
module Commits {
  import opened Wrappers
  import opened RaftTypes
  import opened CompactLog
  import opened Protocol
  import opened StoreSpec
  import opened Cluster
  import opened Simulation
  import opened Safety
  import PreVote
  import C = Consensus

  /** No index past the commit index is there that the node, if it leads, may commit. */
  ghost predicate Prompt(n: Node) {
    n.role == Leader && n.log.Valid() ==> forall k | n.commitIndex < k <= n.log.LastIndex() :: !CanCommit(n, k)
  }

  /** The node does not lead, or nothing that bears on commitment is different. */
  predicate Unmoved(n: Node, m: Node) {
    m.role != Leader
    || (m.role == n.role && m.term == n.term && m.log == n.log && m.commitIndex == n.commitIndex
        && m.matchIndex == n.matchIndex && m.cfg == n.cfg && m.id == n.id)
  }

  /** A node that leads on in its term has forgotten nothing that a peer is known to hold. */
  ghost predicate Remembers(n: Node, m: Node) {
    n.role == Leader && m.role == Leader && m.term == n.term ==>
      n.matchIndex.Keys <= m.matchIndex.Keys && forall p | p in n.matchIndex :: m.matchIndex[p] >= n.matchIndex[p]
  }

  /** From `n` to `m` nothing is held back that was not, and nothing forgotten. */
  ghost predicate Carries(n: Node, m: Node) {
    (Prompt(n) ==> Prompt(m)) && Remembers(n, m)
  }

  lemma UnmovedCarries(n: Node, m: Node)
    requires Unmoved(n, m)
    ensures Carries(n, m)
  {
    hide RLog.Valid, RLog.LastIndex, RLog.TermAt, CanCommit, Prompt;
    if Prompt(n) {
      UnmovedPrompt(n, m);
    }
  }

  lemma UnmovedPrompt(n: Node, m: Node)
    requires Prompt(n) && Unmoved(n, m)
    ensures Prompt(m)
  {
    hide RLog.Valid, RLog.LastIndex, RLog.TermAt;
    if m.role == Leader && m.log.Valid() {
      forall k | m.commitIndex < k <= m.log.LastIndex()
        ensures !CanCommit(m, k)
      {
        assert Holders(m, k) == Holders(n, k) && Majority(m) == Majority(n);
        assert !CanCommit(n, k);
      }
    }
  }

  lemma AdvancedPrompt(n: Node)
    requires n.log.Valid()
    ensures Prompt(AdvanceCommit(n))
  {
    hide RLog.Valid, RLog.LastIndex, RLog.TermAt, CommitUpTo;
    var m := AdvanceCommit(n);
    CommitFound(n, n.log.LastIndex());
    forall k | m.commitIndex < k <= m.log.LastIndex()
      ensures !CanCommit(m, k)
    {
      assert Holders(m, k) == Holders(n, k) && Majority(m) == Majority(n);
      assert !CanCommit(n, k);
    }
  }

  // ---- The handlers ----

  lemma LeadPrompt(n: Node)
    requires n.log.Valid()
    ensures Prompt(BecomeLeader(n))
  {
    hide Prompt, AdvanceCommit;
    assert TakeLead(n).log.Valid();
    AdvancedPrompt(TakeLead(n));
  }

  lemma StandCarries(n: Node)
    requires n.log.Valid()
    ensures Carries(n, StartElection(n))
  {
    hide BecomeLeader, ClusterSize, RLog.Valid, CanCommit;
    LeadPrompt(BecomeCandidate(n));
    LeadTerm(BecomeCandidate(n));
  }

  lemma LeadTerm(n: Node)
    requires n.log.Valid()
    ensures BecomeLeader(n).term == n.term
  {
    hide RLog.Valid, RLog.LastIndex, CommitUpTo;
  }

  lemma VoteCarries(n: Node, req: VoteReq)
    ensures Carries(n, HandleVote(n, req).0)
  {
    hide Carries, Flush, RLog.LastIndex, RLog.LastTerm;
    UnmovedCarries(n, HandleVote(n, req).0);
  }

  lemma VoteRespCarries(n: Node, req: VoteReq, resp: VoteResp)
    requires n.log.Valid()
    ensures Carries(n, OnVoteResp(n, req, resp))
  {
    hide Prompt, Flush, BecomeLeader, Majority, RLog.Valid;
    var m := n.(votes := n.votes + {req.to});
    LeadPrompt(m);
    if resp.term > n.term || n.role != Candidate || n.term != req.term || !resp.granted || 1 + |m.votes| < Majority(m) {
      UnmovedCarries(n, OnVoteResp(n, req, resp));
    }
  }

  lemma FollowCarries(n: Node, t: nat)
    ensures Carries(n, BecomeFollower(n, t))
  {
    hide Carries, Flush;
    UnmovedCarries(n, BecomeFollower(n, t));
  }

  lemma AppendCarries(n: Node, req: AppendReq)
    requires n.log.Valid() && WellFormed(req)
    ensures Carries(n, HandleAppend(n, req).0)
  {
    hide Carries, Flush, MergeEntries, Merge, Mismatch, Fits, RLog.LastIndex, RLog.Valid, WellFormed;
    var m := Acknowledge(n, req);
    AcknowledgeFields(n, req);
    if req.term >= n.term && !Mismatch(m, req) {
      FitsAfter(m, req);
      MergeTouches(m, req.entries);
    }
    UnmovedCarries(n, HandleAppend(n, req).0);
  }

  lemma AppendRespCarries(n: Node, req: AppendReq, resp: AppendResp)
    requires n.log.Valid()
    ensures Carries(n, OnAppendResp(n, req, resp))
  {
    hide Prompt, CommitUpTo, BecomeFollower, RLog.Valid, BackOff;
    FollowCarries(n, resp.term);
    if resp.term <= n.term && n.role == Leader && n.term == req.term && resp.success {
      var reached := req.prevIndex + |req.entries|;
      var held := if reached > Lookup(n.matchIndex, req.to) then reached else Lookup(n.matchIndex, req.to);
      AdvancedPrompt(n.(matchIndex := if reached > Lookup(n.matchIndex, req.to) then n.matchIndex[req.to := reached] else n.matchIndex,
                        nextIndex := n.nextIndex[req.to := held + 1]));
    } else if resp.term <= n.term {
      UnmovedCarries(n, OnAppendResp(n, req, resp));
    }
  }

  lemma ProposeCarries(n: Node, payload: Payload, call: nat)
    requires n.log.Valid()
    ensures Carries(n, Propose(n, payload, call))
  {
    hide Prompt, CommitUpTo;
    var e := Entry(n.term, n.log.LastIndex() + 1, payload);
    var m := n.(log := n.log.Append(e), waiters := n.waiters[e.index := call]);
    assert m.log.Valid();
    AdvancedPrompt(m);
  }

  // ---- The steps ----

  /** In server `id` nothing is held back or forgotten. */
  ghost predicate Fine(c: Cluster, d: Cluster, id: Id) {
    id in c.servers && id in d.servers && Carries(c.servers[id].raft, d.servers[id].raft)
  }

  lemma MovesOne(c: Cluster, d: Cluster, who: Id, s: Server, id: Id)
    requires who in c.servers && id in c.servers && d.servers == c.servers[who := s] && Carries(c.servers[who].raft, s.raft)
    ensures Fine(c, d, id)
  {
    hide Carries;
    UnmovedCarries(c.servers[id].raft, c.servers[id].raft);
  }

  lemma VoteRequestFine(c: Cluster, req: VoteReq, id: Id)
    requires req.to in c.servers && id in c.servers
    ensures Fine(c, StepVoteRequest(c, req), id)
  {
    hide Fine, Carries, HandleVote, HandlePreVote;
    var s := c.servers[req.to];
    if req.preVote {
      NothingFine(c, StepVoteRequest(c, req), id);
    } else {
      VoteCarries(s.raft, req);
      MovesOne(c, StepVoteRequest(c, req), req.to, s.(raft := HandleVote(s.raft, req).0), id);
    }
  }

  lemma VoteReplyFine(c: Cluster, req: VoteReq, resp: VoteResp, id: Id)
    requires req.from in c.servers && c.servers[req.from].raft.log.Valid() && id in c.servers
    ensures Fine(c, StepVoteReply(c, req, resp), id)
  {
    hide Fine, Carries, OnVoteResp, StepPreVoteReply, RLog.Valid;
    var s := c.servers[req.from];
    if req.preVote {
      PreVoteReplyFine(c, req, resp, id);
    } else {
      VoteRespCarries(s.raft, req, resp);
      MovesOne(c, StepVoteReply(c, req, resp), req.from, s.(raft := OnVoteResp(s.raft, req, resp)), id);
    }
  }

  lemma PreVoteReplyFine(c: Cluster, req: VoteReq, resp: VoteResp, id: Id)
    requires req.from in c.servers && c.servers[req.from].raft.log.Valid() && id in c.servers
    ensures Fine(c, StepPreVoteReply(c, req, resp), id)
  {
    hide Carries, StartElection, BecomeFollower, Majority, RLog.Valid, VoteRequests;
    var s := c.servers[req.from];
    StandCarries(s.raft);
    FollowCarries(s.raft, resp.term);
    UnmovedCarries(s.raft, s.raft);
    UnmovedCarries(c.servers[id].raft, c.servers[id].raft);
  }

  lemma CampaignFine(c: Cluster, who: Id, id: Id)
    requires who in c.servers && c.servers[who].raft.log.Valid() && id in c.servers && c.servers[who].raft.role != Leader
    ensures Fine(c, StepCampaign(c, who), id)
  {
    hide Carries, StartElection, ClusterSize, MayCampaign, RLog.Valid, VoteRequests;
    var n := c.servers[who].raft;
    StandCarries(n.(recent := true));
    UnmovedCarries(n, n.(recent := true));
    UnmovedCarries(c.servers[id].raft, c.servers[id].raft);
    CarriesOn(n, n.(recent := true), StartElection(n.(recent := true)));
  }

  lemma CarriesOn(n: Node, m: Node, k: Node)
    requires n.role != Leader && Carries(n, m) && Carries(m, k)
    ensures Carries(n, k)
  {
    hide Prompt;
  }

  lemma AppendRequestFine(c: Cluster, req: AppendReq, id: Id)
    requires req.to in c.servers && c.servers[req.to].raft.log.Valid() && WellFormed(req) && id in c.servers
    ensures Fine(c, StepAppendRequest(c, req), id)
  {
    hide Fine, Carries, HandleAppend, RLog.Valid, WellFormed;
    var s := c.servers[req.to];
    AppendCarries(s.raft, req);
    MovesOne(c, StepAppendRequest(c, req), req.to, s.(raft := HandleAppend(s.raft, req).0), id);
  }

  lemma AppendReplyFine(c: Cluster, req: AppendReq, resp: AppendResp, id: Id)
    requires req.from in c.servers && c.servers[req.from].raft.log.Valid() && id in c.servers
    ensures Fine(c, StepAppendReply(c, req, resp), id)
  {
    hide Carries, OnAppendResp, BecomeFollower, RLog.Valid;
    var s := c.servers[req.from];
    AppendRespCarries(s.raft, req, resp);
    FollowCarries(s.raft, resp.term);
    UnmovedCarries(s.raft, s.raft);
    UnmovedCarries(c.servers[id].raft, c.servers[id].raft);
  }

  lemma NetworkFine(c: Cluster, a: Action, id: Id)
    requires Sound(c) && Enabled(c, a) && Networked(a) && id in c.servers
    ensures Fine(c, StepNetwork(c, a), id)
  {
    hide Fine, StepVoteRequest, StepVoteReply, StepReplicate, StepAppendRequest, StepAppendReply, RLog.Valid, WellFormed, Peers;
    if a.ReceiveVoteRequest? || a.ReceiveVoteReply? {
      VoteFine(c, a, id);
    } else if a.Replicate? {
      ReplicateFine(c, a.id, a.peer, id);
    } else {
      AppendFine(c, a, id);
    }
  }

  lemma VoteFine(c: Cluster, a: Action, id: Id)
    requires Sound(c) && Enabled(c, a) && (a.ReceiveVoteRequest? || a.ReceiveVoteReply?) && id in c.servers
    ensures Fine(c, StepNetwork(c, a), id)
  {
    hide Fine, StepVoteRequest, StepVoteReply, RLog.Valid, WellFormed, Peers;
    match a {
      case ReceiveVoteRequest(req) => VoteRequestFine(c, req, id);
      case ReceiveVoteReply(req, resp) => VoteReplyFine(c, req, resp, id);
    }
  }

  lemma AppendFine(c: Cluster, a: Action, id: Id)
    requires Sound(c) && Enabled(c, a) && (a.ReceiveAppendRequest? || a.ReceiveAppendReply?) && id in c.servers
    ensures Fine(c, StepNetwork(c, a), id)
  {
    hide Fine, StepAppendRequest, StepAppendReply, RLog.Valid, WellFormed, Peers;
    match a {
      case ReceiveAppendRequest(req) => AppendRequestFine(c, req, id);
      case ReceiveAppendReply(req, resp) => AppendReplyFine(c, req, resp, id);
    }
  }

  lemma ReplicateFine(c: Cluster, who: Id, peer: Id, id: Id)
    requires who in c.servers && c.servers[who].raft.log.Valid() && id in c.servers
    ensures Fine(c, StepReplicate(c, who, peer), id)
  {
    hide Fine, RLog.Valid, BuildAppend;
    NothingFine(c, StepReplicate(c, who, peer), id);
  }

  lemma NothingFine(c: Cluster, d: Cluster, id: Id)
    requires id in c.servers && d.servers == c.servers
    ensures Fine(c, d, id)
  {
    hide Carries;
    UnmovedCarries(c.servers[id].raft, c.servers[id].raft);
  }

  lemma SubmitFine(c: Cluster, who: Id, command: Command, id: Id)
    requires who in c.servers && c.servers[who].raft.log.Valid() && id in c.servers
    ensures Fine(c, StepSubmit(c, who, command), id)
  {
    hide Carries, Propose, RLog.Valid, RLog.LastIndex;
    ProposeCarries(c.servers[who].raft, Normal(command), c.calls);
    UnmovedCarries(c.servers[id].raft, c.servers[id].raft);
  }

  /** Steps that concern neither votes nor logs. */
  predicate Aside(a: Action) {
    !Networked(a) && !a.Campaign? && !a.Submit?
  }

  lemma AsideUnmoved(c: Cluster, a: Action, id: Id)
    requires Sound(c) && Enabled(c, a) && Aside(a) && id in c.servers
    ensures id in Step(c, a).servers && Unmoved(c.servers[id].raft, Step(c, a).servers[id].raft)
  {
    hide Enabled, Sound, Step, Unmoved;
    if a.ApplyTake? || a.ApplyRun? || a.ApplyFinish? {
      ApplyUnmoved(c, a, id);
    } else if a.ReadCapture? || a.ReadConfirm? || a.ReadReturn? {
      ReadUnmoved(c, a, id);
    } else {
      OtherUnmoved(c, a, id);
    }
  }

  lemma ApplyUnmoved(c: Cluster, a: Action, id: Id)
    requires Sound(c) && Enabled(c, a) && (a.ApplyTake? || a.ApplyRun? || a.ApplyFinish?) && id in c.servers
    ensures id in Step(c, a).servers && Unmoved(c.servers[id].raft, Step(c, a).servers[id].raft)
  {
    hide Sound, ApplyEntry, RLog.Valid, Unmoved, StepApplyFinish, StepApplyTake;
    if a.ApplyTake? {
      assert c.servers[a.id].raft.log.Valid() by { ValidHere(c, a.id); }
      TakeUnmoved(c, a.id, id);
    } else if a.ApplyFinish? {
      FinishUnmoved(c, a.id, id);
    } else {
      SameUnmoved(c.servers[id].raft);
    }
  }

  lemma ValidHere(c: Cluster, id: Id)
    requires Sound(c) && id in c.servers
    ensures c.servers[id].raft.log.Valid()
  {
  }

  lemma SameUnmoved(n: Node)
    ensures Unmoved(n, n)
  {
  }

  lemma TakeUnmoved(c: Cluster, who: Id, id: Id)
    requires who in c.servers && c.servers[who].raft.log.Valid() && id in c.servers
    ensures id in StepApplyTake(c, who).servers && Unmoved(c.servers[id].raft, StepApplyTake(c, who).servers[id].raft)
  {
    hide RLog.Valid, RLog.At;
  }

  lemma FinishUnmoved(c: Cluster, who: Id, id: Id)
    requires who in c.servers && c.servers[who].applying.Some? && c.servers[who].applying.value.result.Some? && id in c.servers
    ensures id in StepApplyFinish(c, who).servers && Unmoved(c.servers[id].raft, StepApplyFinish(c, who).servers[id].raft)
  {
    hide Unmoved, Deliver;
    var s := c.servers[who];
    var a := s.applying.value;
    var n := if a.entry.index > s.raft.lastApplied then s.raft.(lastApplied := a.entry.index) else s.raft;
    DeliverUnmoved(s.raft, n, a.waiter, a.result.value);
    SameUnmoved(c.servers[id].raft);
  }

  lemma DeliverUnmoved(n: Node, m: Node, waiter: Option<nat>, result: Result)
    requires m == n.(lastApplied := m.lastApplied)
    ensures Unmoved(n, m) && (waiter.Some? ==> Unmoved(n, Deliver(m, waiter.value, Applied(result))))
  {
    hide Received;
  }

  lemma ReadUnmoved(c: Cluster, a: Action, id: Id)
    requires Sound(c) && Enabled(c, a) && (a.ReadCapture? || a.ReadConfirm? || a.ReadReturn?) && id in c.servers
    ensures id in Step(c, a).servers && Unmoved(c.servers[id].raft, Step(c, a).servers[id].raft)
  {
    hide Sound, RLog.Valid, MayReturn, BuildProbe, ClusterSize;
  }

  lemma OtherUnmoved(c: Cluster, a: Action, id: Id)
    requires Sound(c) && Enabled(c, a) && (a.Expire? || a.Abandon? || a.Crash?) && id in c.servers
    ensures id in Step(c, a).servers && Unmoved(c.servers[id].raft, Step(c, a).servers[id].raft)
  {
    hide Sound, RLog.Valid, Halted, Reaches;
  }

  lemma StepFine(c: Cluster, a: Action, id: Id)
    requires Sound(c) && Enabled(c, a) && id in c.servers
    ensures Fine(c, Step(c, a), id)
  {
    hide Unmoved, Fine, StepNetwork, StepCampaign, StepSubmit, RLog.Valid, WellFormed;
    if Networked(a) {
      NetworkFine(c, a, id);
    } else if a.Campaign? {
      CampaignFine(c, a.id, id);
    } else if a.Submit? {
      SubmitFine(c, a.id, a.command, id);
    } else {
      AsideUnmoved(c, a, id);
      AsideFine(c, Step(c, a), id);
    }
  }

  lemma AsideFine(c: Cluster, d: Cluster, id: Id)
    requires id in c.servers && id in d.servers && Unmoved(c.servers[id].raft, d.servers[id].raft)
    ensures Fine(c, d, id)
  {
    hide Carries, Unmoved;
    UnmovedCarries(c.servers[id].raft, d.servers[id].raft);
  }

  /** In every reachable state a leader has committed all that a majority is known to hold of its own term. */
  lemma {:induction false} NothingHeldBack(r: Run, i: nat, id: Id)
    requires IsRun(r) && Present(r, i, id) && NodeAt(r, i, id).role == Leader
    ensures NodeAt(r, i, id).log.Valid()
    ensures forall k | CommitAt(r, i, id) < k <= |LogAt(r, i, id)| :: !CanCommit(NodeAt(r, i, id), k)
  {
    hide IsRun, CanCommit, RLog.Valid;
    PromptAt(r, i, id);
    PositionOrder(r, i, id);
    LogLength(r, i, id);
  }

  lemma LogLength(r: Run, i: nat, id: Id)
    requires IsRun(r) && Present(r, i, id)
    ensures NodeAt(r, i, id).log.LastIndex() == |LogAt(r, i, id)|
  {
    hide IsRun, Follows, ServerOk, C.Inv, C.MemberOk, C.Extends;
    var hs, caps := RunSimulated(r);
    NodeFacts(r, hs, caps, i, i, id);
    Parts(hs[i], ContextOf(r.states[i], caps[i]), r.states[i].servers[id]);
    LinkedLength(hs[i], r.states[i].servers.Keys, NodeAt(r, i, id));
  }

  lemma {:induction false} PromptAt(r: Run, i: nat, id: Id)
    requires IsRun(r) && Present(r, i, id)
    ensures Prompt(NodeAt(r, i, id))
    decreases i
  {
    hide IsRun, Sound, Enabled, Step, Prompt;
    RunLength(r);
    if i == 0 {
      Starts(r, id);
    } else {
      StepOf(r, i - 1);
      PreVote.KeysStay(r.states[i - 1], r.actions[i - 1]);
      PromptAt(r, i - 1, id);
      StepFine(r.states[i - 1], r.actions[i - 1], id);
    }
  }

  /** From one step to the next a leader that leads on in its term never lowers a match index. */
  lemma NothingForgotten(r: Run, i: nat, id: Id)
    requires IsRun(r) && i < |r.actions| && Present(r, i, id)
    ensures Present(r, i + 1, id) && Remembers(NodeAt(r, i, id), NodeAt(r, i + 1, id))
  {
    hide IsRun, Sound, Enabled, Step, Prompt, Remembers;
    RunLength(r);
    StepOf(r, i);
    PreVote.KeysStay(r.states[i], r.actions[i]);
    StepFine(r.states[i], r.actions[i], id);
  }

  lemma Starts(r: Run, id: Id)
    requires IsRun(r) && Present(r, 0, id)
    ensures Prompt(NodeAt(r, 0, id))
  {
  }
}

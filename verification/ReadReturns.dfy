/**
  That a read waits for no more than it must: what index it captures, read off the log,
  and that it may return as soon as that much is applied and a majority has confirmed.
 */
module ReadReturns {
  import opened Wrappers
  import opened RaftTypes
  import opened CompactLog
  import opened Protocol
  import opened StoreSpec
  import opened Cluster
  import opened Simulation
  import opened Safety
  import opened Reads
  import opened Proposals
  import PreVote
  import C = Consensus
  import R = Reigns

  /** The first entry of term `t` in the log is at index `k`. */
  ghost predicate FirstAt(log: seq<Entry>, t: nat, k: nat) {
    0 < k <= |log| && log[k - 1].term == t && forall j | 0 <= j < k - 1 :: log[j].term != t
  }

  lemma FirstIsOne(log: seq<Entry>, t: nat, j: nat, k: nat)
    requires FirstAt(log, t, j) && FirstAt(log, t, k)
    ensures j == k
  {
  }

  /** A leader knows where its own term begins in its log. */
  lemma TermStartsAt(h: History, x: Context, s: Server)
    requires C.Inv(h) && ServerOk(h, x, s) && s.raft.role == Leader
    ensures FirstAt(s.raft.log.entries, s.raft.term, s.raft.termStart)
  {
    hide C.Inv, ServerOk, C.ReignOk, C.ReignShape, C.LogOk, C.MemberOk, SentOk, WaitersOk, ApplyOk, ReadsOk, CandidateOk;
    Parts(h, x, s);
    LinkedMember(h, x.ids, s.raft);
    C.InvMember(h, s.raft.id);
    R.LeaderOf(h, s.raft.id);
    C.InvReign(h, s.raft.term);
    BaseBelow(h, s.raft.term);
  }

  lemma LinkedMember(h: History, ids: set<Id>, n: Node)
    requires Linked(h, ids, n)
    ensures n.id in h.members && h.members[n.id] == C.Member(n.term, n.votedFor, n.role, n.log.entries, n.commitIndex)
  {
  }

  lemma BaseBelow(h: History, t: nat)
    requires t in h.reigns && C.ReignShape(h.reigns, t)
    ensures var r := h.reigns[t];
            |r.base| < |r.log| && r.log[|r.base|].term == t && forall j | 0 <= j < |r.base| :: r.log[j].term < t
  {
  }

  // ---- What a read keeps ----

  /** A call that goes on has captured what it had, and has lost no confirmation. */
  predicate ReadKept(s: Server, t: Server, call: nat) {
    call in t.readCalls ==>
      && call in s.readCalls && t.readCalls[call].readIndex == s.readCalls[call].readIndex
      && t.readCalls[call].term == s.readCalls[call].term
      && (s.readCalls[call].confirming ==> t.readCalls[call].confirming) && s.readCalls[call].acks <= t.readCalls[call].acks
  }

  lemma NetworkReads(c: Cluster, a: Action, id: Id, call: nat)
    requires Sound(c) && Enabled(c, a) && Networked(a) && id in c.servers && id in StepNetwork(c, a).servers
    ensures ReadKept(c.servers[id], StepNetwork(c, a).servers[id], call)
  {
    hide Sound, HandleVote, HandlePreVote, OnVoteResp, StartElection, HandleAppend, OnAppendResp, BuildAppend, BecomeFollower, Majority,
         RLog.Valid, VoteRequests, WellFormed;
  }

  lemma LocalReads(c: Cluster, a: Action, id: Id, call: nat)
    requires Sound(c) && Enabled(c, a) && !Networked(a) && id in c.servers && id in Step(c, a).servers && call < c.calls
    ensures ReadKept(c.servers[id], Step(c, a).servers[id], call)
  {
    hide Sound, StepNetwork, StartElection, Propose, Majority, ApplyEntry, RLog.Valid, RLog.At, MayReturn,
         VoteRequests, BuildProbe, MayCampaign, ClusterSize, Reaches, Restart, Halted, Received;
  }

  lemma StepReads(c: Cluster, a: Action, id: Id, call: nat)
    requires Sound(c) && Enabled(c, a) && id in c.servers && call < c.calls
    ensures id in Step(c, a).servers && ReadKept(c.servers[id], Step(c, a).servers[id], call)
  {
    hide Sound, Enabled, Step, ReadKept;
    PreVote.KeysStay(c, a);
    if Networked(a) {
      NetworkStep(c, a);
      NetworkReads(c, a, id, call);
    } else {
      LocalReads(c, a, id, call);
    }
  }

  lemma NetworkStep(c: Cluster, a: Action)
    requires Sound(c) && Enabled(c, a) && Networked(a)
    ensures Step(c, a) == StepNetwork(c, a)
  {
    hide Sound, StepNetwork;
  }

  // ---- What a read captures ----

  /**
    The read index a call captures at a leader: its commit index, if the first entry of
    its own term in its log is committed, and else that entry's index.
   */
  lemma CaptureIs(r: Run, s: nat, id: Id) returns (k: nat)
    requires IsRun(r) && s < |r.actions| && r.actions[s] == ReadCapture(id)
    ensures s + 1 < |r.states| && Present(r, s, id) && Present(r, s + 1, id)
    ensures FirstAt(LogAt(r, s, id), NodeAt(r, s, id).term, k)
    ensures var call, held := r.states[s].calls, r.states[s + 1].servers[id].readCalls;
            && call in held && held[call].readIndex == (if k <= CommitAt(r, s, id) then CommitAt(r, s, id) else k)
            && held[call].readIndex <= |LogAt(r, s, id)| && held[call].term == NodeAt(r, s, id).term && held[call].acks == {}
            && r.states[s + 1].calls == call + 1
  {
    hide IsRun, Follows, ServerOk, C.Inv, C.MemberOk, C.Extends, Sound;
    RunLength(r);
    StepOf(r, s);
    Captures(r.states[s], id);
    var hs, caps := RunSimulated(r);
    NodeFacts(r, hs, caps, s, s, id);
    var x, v := ContextOf(r.states[s], caps[s]), r.states[s].servers[id];
    TermStartsAt(hs[s], x, v);
    Parts(hs[s], x, v);
    CommitInside(x.proposals, v);
    k := v.raft.termStart;
  }

  lemma Captures(c: Cluster, id: Id)
    requires Sound(c) && Enabled(c, ReadCapture(id))
    ensures id in c.servers && c.servers[id].raft.role == Leader && Step(c, ReadCapture(id)) == StepReadCapture(c, id)
  {
    hide Sound;
  }

  /** What was captured stays captured. */
  lemma {:induction false} ReadStays(r: Run, s: nat, e: nat, id: Id, call: nat)
    requires IsRun(r) && s <= e < |r.states| && Present(r, s, id) && call < r.states[s].calls
    ensures Present(r, e, id) && call < r.states[e].calls && ReadKept(r.states[s].servers[id], r.states[e].servers[id], call)
    decreases e
  {
    hide IsRun, Sound, Enabled, Step;
    RunLength(r);
    if s < e {
      ReadStays(r, s, e - 1, id, call);
      StepOf(r, e - 1);
      StepReads(r.states[e - 1], r.actions[e - 1], id, call);
      CallsGrow(r.states[e - 1], r.actions[e - 1]);
    }
  }

  lemma CallsGrow(c: Cluster, a: Action)
    requires Sound(c) && Enabled(c, a)
    ensures c.calls <= Step(c, a).calls
  {
    hide Sound, StepNetwork, StartElection, Propose, ClusterSize, ApplyEntry, RLog.Valid, RLog.At, Restart, MayReturn, VoteRequests,
         Reaches, Halted;
    if Networked(a) {
      NetworkCalls(c, a);
    }
  }

  lemma NetworkCalls(c: Cluster, a: Action)
    requires Sound(c) && Enabled(c, a) && Networked(a)
    ensures StepNetwork(c, a).calls == c.calls
  {
    hide Sound, HandleVote, HandlePreVote, OnVoteResp, StartElection, HandleAppend, OnAppendResp, BuildAppend, BecomeFollower, Majority,
         RLog.Valid, VoteRequests;
  }

  /**
    A call that goes on, and that a majority of the cluster has confirmed, may return as
    soon as everything is applied that its node had committed when it began, and the
    first entry of the node's term then.
   */
  lemma ReadMayReturn(r: Run, s: nat, e: nat, id: Id, k: nat)
    requires IsRun(r) && s < |r.actions| && r.actions[s] == ReadCapture(id) && s < e < |r.states| && Present(r, s, id) && Present(r, e, id)
    requires FirstAt(LogAt(r, s, id), NodeAt(r, s, id).term, k)
    requires r.states[s].calls in r.states[e].servers[id].readCalls
    requires var read := r.states[e].servers[id].readCalls[r.states[s].calls];
             read.confirming && IsQuorum(read.acks + {id}, r.states[e].servers.Keys) && id !in read.acks
    requires NodeAt(r, e, id).lastApplied >= CommitAt(r, s, id) && NodeAt(r, e, id).lastApplied >= k
    ensures Enabled(r.states[e], ReadReturn(id, r.states[s].calls))
  {
    hide IsRun, Sound, Majority;
    var call := r.states[s].calls;
    var j := CaptureIs(r, s, id);
    FirstIsOne(LogAt(r, s, id), NodeAt(r, s, id).term, j, k);
    ReadStays(r, s + 1, e, id, call);
    PreVote.ClusterKeys(r, e, id);
    var acks := r.states[e].servers[id].readCalls[call].acks;
    assert |acks + {id}| == |acks| + 1;
  }

  /** A peer that answers in the read's term confirms it. */
  lemma AnswerConfirms(c: Cluster, req: AppendReq, resp: AppendResp, call: nat)
    requires Sound(c) && Enabled(c, ReceiveAppendReply(req, resp)) && req.call == Some(call) && resp.term <= req.term
    requires req.from in c.servers && call in c.servers[req.from].readCalls
    ensures var s, t := c.servers[req.from], Step(c, ReceiveAppendReply(req, resp)).servers;
            req.from in t && call in t[req.from].readCalls
            && t[req.from].readCalls[call] == s.readCalls[call].(acks := s.readCalls[call].acks + {req.to})
  {
    hide Sound;
  }

  /** While the leader still leads in the read's term, asking goes out to every peer. */
  lemma AskingReaches(c: Cluster, id: Id, call: nat)
    requires Sound(c) && Enabled(c, ReadConfirm(id, call)) && id in c.servers && call in c.servers[id].readCalls
    requires c.servers[id].raft.role == Leader && c.servers[id].raft.term == c.servers[id].readCalls[call].term
    ensures var d := Step(c, ReadConfirm(id, call));
            && id in d.servers && call in d.servers[id].readCalls && d.servers[id].readCalls[call].confirming
            && forall p | p in Peers(c.servers[id].raft) ::
                 AppendRequest(AppendReq(c.servers[id].raft.id, p, Some(call), c.servers[id].raft.term, 0, 0, [], 0)) in d.net
  {
    hide Sound;
  }
}

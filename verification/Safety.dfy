/**
  What holds in every run of the cluster: the guarantees of sections 5.2 to 5.4
  of the extended Raft paper, the positions of the commit and apply indices, and
  what a successful proposal returns. Servers may crash and restart at any time.
 */
module Safety {
  import opened Wrappers
  import opened RaftTypes
  import opened CompactLog
  import opened Protocol
  import opened StoreSpec
  import opened Cluster
  import opened Simulation
  import C = Consensus
  import R = Reigns

  /** Node `id` exists in the `i`-th state of the run. */
  ghost predicate Present(r: Run, i: nat, id: Id) {
    i < |r.states| && id in r.states[i].servers
  }

  ghost function NodeAt(r: Run, i: nat, id: Id): Node
    requires Present(r, i, id)
  {
    r.states[i].servers[id].raft
  }

  ghost function LogAt(r: Run, i: nat, id: Id): seq<Entry>
    requires Present(r, i, id)
  {
    NodeAt(r, i, id).log.entries
  }

  ghost function CommitAt(r: Run, i: nat, id: Id): nat
    requires Present(r, i, id)
  {
    NodeAt(r, i, id).commitIndex
  }

  // ---- What a node's state says of the history ----

  /** A node's facts in a state of the run, in terms of a later history. */
  lemma NodeFacts(r: Run, hs: seq<History>, caps: seq<map<nat, History>>, i: nat, j: nat, id: Id)
    requires Follows(r, hs, caps) && i <= j < |r.states| && Present(r, i, id)
    ensures id in hs[i].members && C.MemberOk(hs[i], id) && C.Inv(hs[i]) && C.Inv(hs[j]) && C.Extends(hs[i], hs[j])
    ensures var n := NodeAt(r, i, id);
            n.id == id && hs[i].members[id] == C.Member(n.term, n.votedFor, n.role, n.log.entries, n.commitIndex)
    ensures ServerOk(hs[i], ContextOf(r.states[i], caps[i]), r.states[i].servers[id])
  {
    hide Related, Later, ServerOk, C.Inv, C.Extends, C.MemberOk;
    ServerOf(hs[i], caps[i], r.states[i], id);
    Parts(hs[i], ContextOf(r.states[i], caps[i]), r.states[i].servers[id]);
    C.InvMember(hs[i], id);
    LaterExtends(r, hs, caps, i, j);
    LedgersOf(hs[j], caps[j], r.states[j]);
  }

  lemma LaterExtends(r: Run, hs: seq<History>, caps: seq<map<nat, History>>, i: nat, j: nat)
    requires Follows(r, hs, caps) && i <= j < |r.states|
    ensures C.Extends(hs[i], hs[j]) && Captured(caps[i], caps[j]) && Related(hs[j], caps[j], r.states[j])
  {
    hide Related, C.Extends;
    assert Later(hs[i], caps[i], hs[j], caps[j]);
  }

  /** The reign that vouches for a node's committed prefix, in any later history. */
  lemma Voucher(h: History, g: History, id: Id) returns (t: nat)
    requires C.Inv(h) && C.Inv(g) && C.Extends(h, g) && id in h.members && C.MemberOk(h, id)
    requires h.members[id].commit > 0
    ensures t in h.reigns && t in g.reigns && t <= h.members[id].term && h.members[id].commit <= h.reigns[t].commit
    ensures C.Safe(g, t, h.members[id].commit) && Agree(h.members[id].log, g.reigns[t].log, h.members[id].commit)
  {
    hide C.Inv, C.Safe;
    var m := h.members[id];
    t :| t in h.reigns && t <= m.term && m.commit <= h.reigns[t].commit && Agree(m.log, h.reigns[t].log, m.commit);
    C.InvReign(h, t);
    R.ReignSafe(h, t);
    C.SafeGrows(h, g, t, h.reigns[t].commit);
    C.AgreeShift(m.log, h.reigns[t].log, g.reigns[t].log, m.commit);
    C.AgreeTake(h.reigns[t].log, h.reigns[t].log, h.reigns[t].commit, m.commit) by { C.SafeLength(h, t, h.reigns[t].commit); }
    R.SafeMoves(g, t, h.reigns[t].commit, t, m.commit) by { C.SafeLength(g, t, h.reigns[t].commit); }
  }

  // ---- Election safety ----

  /** At most one node ever leads in a term. */
  lemma ElectionSafety(r: Run, i: nat, a: Id, j: nat, b: Id)
    requires IsRun(r) && Present(r, i, a) && Present(r, j, b)
    requires NodeAt(r, i, a).role == Leader && NodeAt(r, j, b).role == Leader
    requires NodeAt(r, i, a).term == NodeAt(r, j, b).term
    ensures a == b
  {
    hide IsRun, Follows, C.Inv, ServerOk, C.MemberOk;
    var hs, caps := RunSimulated(r);
    var last := if i <= j then j else i;
    NodeFacts(r, hs, caps, i, last, a);
    NodeFacts(r, hs, caps, j, last, b);
    R.LeaderOf(hs[i], a);
    R.LeaderOf(hs[j], b);
  }

  // ---- Log matching ----

  /** Two logs, of any two nodes at any two times, with an entry of the same index and term agree up to it. */
  lemma LogMatching(r: Run, i: nat, a: Id, j: nat, b: Id, k: nat)
    requires IsRun(r) && Present(r, i, a) && Present(r, j, b)
    requires k < |LogAt(r, i, a)| && k < |LogAt(r, j, b)| && LogAt(r, i, a)[k].term == LogAt(r, j, b)[k].term
    ensures Agree(LogAt(r, i, a), LogAt(r, j, b), k + 1)
  {
    hide IsRun, Follows, C.Inv, ServerOk, C.MemberOk;
    var hs, caps := RunSimulated(r);
    var last := if i <= j then j else i;
    NodeFacts(r, hs, caps, i, last, a);
    NodeFacts(r, hs, caps, j, last, b);
    LogLater(hs[i], hs[last], a);
    LogLater(hs[j], hs[last], b);
    C.LogMatching(hs[last], LogAt(r, i, a), LogAt(r, j, b), k);
  }

  lemma LogLater(h: History, g: History, id: Id)
    requires id in h.members && C.MemberOk(h, id) && C.Extends(h, g)
    ensures C.LogOk(g.reigns, h.members[id].log)
  {
  }

  // ---- State-machine safety ----

  /** No two nodes, at any two times, regard different entries as committed at one index. */
  lemma StateMachineSafety(r: Run, i: nat, a: Id, j: nat, b: Id, k: nat)
    requires IsRun(r) && Present(r, i, a) && Present(r, j, b)
    requires k <= CommitAt(r, i, a) && k <= CommitAt(r, j, b)
    ensures Agree(LogAt(r, i, a), LogAt(r, j, b), k)
  {
    hide IsRun, Follows, C.Inv, ServerOk, C.MemberOk, C.Safe, C.Extends;
    if k > 0 {
      var hs, caps := RunSimulated(r);
      var last := if i <= j then j else i;
      NodeFacts(r, hs, caps, i, last, a);
      NodeFacts(r, hs, caps, j, last, b);
      var t := Voucher(hs[i], hs[last], a);
      var u := Voucher(hs[j], hs[last], b);
      VouchersAgree(hs[last], t, hs[i].members[a].log, CommitAt(r, i, a), u, hs[j].members[b].log, CommitAt(r, j, b), k);
    } else {
      assert LogAt(r, i, a)[..0] == LogAt(r, j, b)[..0];
    }
  }

  lemma VouchersAgree(h: History, t: nat, a: seq<Entry>, m: nat, u: nat, b: seq<Entry>, n: nat, k: nat)
    requires C.Inv(h) && C.Safe(h, t, m) && C.Safe(h, u, n) && k <= m && k <= n
    requires t in h.reigns && u in h.reigns && Agree(a, h.reigns[t].log, m) && Agree(b, h.reigns[u].log, n)
    ensures Agree(a, b, k)
  {
    hide C.Inv, C.Safe;
    if m <= n {
      C.SafePrefixesAgree(h, t, m, u, n);
    } else {
      C.SafePrefixesAgree(h, u, n, t, m);
    }
    var least := if m <= n then m else n;
    C.AgreeTake(h.reigns[t].log, h.reigns[u].log, least, k);
    C.AgreeTake(a, h.reigns[t].log, m, k);
    C.AgreeTake(b, h.reigns[u].log, n, k);
  }

  // ---- Leader completeness ----

  /**
    What node `a` regards as committed at some time is in the log of every leader
    of a later term, whenever it leads, and of its own term from then on.
   */
  lemma LeaderCompleteness(r: Run, i: nat, a: Id, j: nat, b: Id)
    requires IsRun(r) && Present(r, i, a) && Present(r, j, b) && NodeAt(r, j, b).role == Leader
    requires NodeAt(r, i, a).term < NodeAt(r, j, b).term || (i <= j && NodeAt(r, i, a).term == NodeAt(r, j, b).term)
    ensures Agree(LogAt(r, i, a), LogAt(r, j, b), CommitAt(r, i, a))
  {
    hide IsRun, Follows, C.Inv, ServerOk, C.MemberOk, C.Safe;
    var k := CommitAt(r, i, a);
    if k > 0 {
      var hs, caps := RunSimulated(r);
      var last := if i <= j then j else i;
      NodeFacts(r, hs, caps, i, last, a);
      NodeFacts(r, hs, caps, j, last, b);
      R.LeaderOf(hs[j], b);
      var t := Voucher(hs[i], hs[last], a);
      var u := NodeAt(r, j, b).term;
      C.SafeInReign(hs[last], t, k, u);
      C.InvReign(hs[j], u);
      BaseInLog(hs[j], u);
      if t < u {
        C.AgreeShift(hs[last].reigns[t].log, hs[last].reigns[u].base, hs[j].reigns[u].log, k);
      }
      assert Agree(hs[last].reigns[t].log, LogAt(r, j, b), k);
    } else {
      assert LogAt(r, i, a)[..0] == LogAt(r, j, b)[..0];
    }
  }

  lemma BaseInLog(h: History, t: nat)
    requires t in h.reigns && C.ReignShape(h.reigns, t)
    ensures h.reigns[t].base <= h.reigns[t].log
  {
  }

  // ---- The commit clamp ----

  function Max(a: nat, b: nat): nat {
    if a < b then b else a
  }

  /** `m` is `n` after it accepted the request: its entries are in place and its commit index learned in full. */
  ghost predicate Brings(n: Node, req: AppendReq, m: Node) {
    var upto := req.prevIndex + |req.entries|;
    && m.commitIndex == Max(n.commitIndex, req.leaderCommit) && m.lastApplied == n.lastApplied
    && |m.log.entries| >= upto && m.log.entries[req.prevIndex..upto] == req.entries
  }

  /**
    A follower's commit index may move to the end of its log, which need not be the
    end of what the request verified. It never does: in a run every request brings
    its receiver at least to its own commit index, so an accepted request leaves
    exactly the larger of the two commit indices, and the entries it carried in place.
   */
  lemma CommitClampSound(r: Run, i: nat, req: AppendReq)
    requires IsRun(r) && Present(r, i, req.to) && AppendRequest(req) in r.states[i].net
    ensures NodeAt(r, i, req.to).log.Valid() && WellFormed(req)
    ensures req.leaderCommit <= req.prevIndex + |req.entries|
    ensures HandleAppend(NodeAt(r, i, req.to), req).1.success ==>
              Brings(NodeAt(r, i, req.to), req, HandleAppend(NodeAt(r, i, req.to), req).0)
  {
    hide IsRun, Follows, Related, ServerOk, AppendOk, C.Inv, C.MemberOk, C.Extends, Brings, HandleAppend;
    var hs, caps := RunSimulated(r);
    NodeFacts(r, hs, caps, i, i, req.to);
    LaterExtends(r, hs, caps, i, i);
    MessageOf(hs[i], caps[i], r.states[i], AppendRequest(req));
    SoundNow(hs[i], caps[i], r.states[i]);
    Handled(hs[i], ContextOf(r.states[i], caps[i]), r.states[i].servers[req.to], req);
  }

  lemma Handled(h: History, x: Context, s: Server, req: AppendReq)
    requires C.Inv(h) && ServerOk(h, x, s) && AppendOk(h, x, req) && s.raft.log.Valid() && WellFormed(req)
    ensures req.leaderCommit <= req.prevIndex + |req.entries|
    ensures HandleAppend(s.raft, req).1.success ==> Brings(s.raft, req, HandleAppend(s.raft, req).0)
  {
    hide C.Inv, ServerOk, AppendOk, MergeEntries, Mismatch, Acknowledge, Merge, Moved, Linked, SentOk, WaitersOk, ReadsOk, ApplyOk, LeaderOk, CandidateOk, Brings;
    var n := s.raft;
    CommitReached(h, x, req);
    if req.term >= n.term {
      var m := Acknowledge(n, req);
      AcknowledgeFields(n, req);
      if !Mismatch(m, req) {
        var g := AcknowledgeMoves(h, x, s, req);
        MovedInv(h, g, n.id);
        AppendGrows(h, g, x, x, req) by { SameContext(x); }
        Parts(g, x, s.(raft := m));
        FitsAfter(m, req);
        MergeAgrees(g, x, m, req);
        MergedTail(g, x, m, req) by { LinkedLog(g, x.ids, m); }
        Learned(n, m, req);
      }
    }
  }

  lemma LinkedLog(h: History, ids: set<Id>, n: Node)
    requires Linked(h, ids, n)
    ensures n.log.Valid() && n.log.snapIndex == 0
  {
  }

  lemma Learned(n: Node, m: Node, req: AppendReq)
    requires m.log.Valid() && Fits(m.log, req.entries) && m.commitIndex == n.commitIndex && m.lastApplied == n.lastApplied
    requires MergeEntries(m, req.entries) == m.(log := Merge(m.log, req.entries))
    requires var l, upto := Merge(m.log, req.entries), req.prevIndex + |req.entries|;
             req.leaderCommit <= upto <= |l.entries| && l.LastIndex() == |l.entries| && l.entries[req.prevIndex..upto] == req.entries
    ensures Brings(n, req, LearnCommit(MergeEntries(m, req.entries), req.leaderCommit))
  {
  }

  lemma CommitReached(h: History, x: Context, req: AppendReq)
    requires AppendOk(h, x, req)
    ensures req.leaderCommit <= req.prevIndex + |req.entries|
  {
  }

  lemma MergedTail(h: History, x: Context, n: Node, req: AppendReq)
    requires AppendOk(h, x, req) && n.log.Valid() && n.log.snapIndex == 0 && Fits(n.log, req.entries)
    requires Agree(Merge(n.log, req.entries).entries, h.reigns[req.term].log, req.prevIndex + |req.entries|)
    ensures var l, upto := Merge(n.log, req.entries), req.prevIndex + |req.entries|;
            l.LastIndex() == |l.entries| >= upto && l.entries[req.prevIndex..upto] == req.entries
  {
  }

  // ---- Positions ----

  /** Nothing uncommitted is applied, nothing missing is committed, and the next entry to apply is there. */
  lemma PositionOrder(r: Run, i: nat, id: Id)
    requires IsRun(r) && Present(r, i, id)
    ensures var n := NodeAt(r, i, id);
            && n.log.Valid() && n.log.snapIndex <= n.lastApplied <= n.commitIndex <= n.log.LastIndex()
            && (n.lastApplied < n.commitIndex ==> n.log.At(n.lastApplied + 1).Some?)
  {
    hide IsRun, Follows, Related, ServerOk, C.Inv, C.MemberOk, C.Extends;
    var hs, caps := RunSimulated(r);
    NodeFacts(r, hs, caps, i, i, id);
    var s, x := r.states[i].servers[id], ContextOf(r.states[i], caps[i]);
    Parts(hs[i], x, s);
    LinkedLength(hs[i], x.ids, s.raft);
    CommitInside(x.proposals, s);
  }

  /** A step other than a crash of the node takes neither index back. */
  ghost predicate Forward(n: Node, m: Node) {
    n.commitIndex <= m.commitIndex && n.lastApplied <= m.lastApplied
  }

  lemma CommitForward(n: Node)
    requires n.log.Valid()
    ensures Forward(n, AdvanceCommit(n))
  {
    CommitFound(n, n.log.LastIndex());
  }

  lemma LeaderForward(n: Node)
    requires n.log.Valid()
    ensures Forward(n, BecomeLeader(n)) && Forward(n, StartElection(n))
  {
    hide CommitUpTo;
    CommitForward(TakeLead(n));
    CommitForward(TakeLead(BecomeCandidate(n)));
  }

  lemma VoteRespForward(n: Node, req: VoteReq, resp: VoteResp)
    requires n.log.Valid()
    ensures Forward(n, OnVoteResp(n, req, resp))
  {
    hide CommitUpTo, Flush, Majority, TakeLead, BecomeLeader, StartElection;
    BecomeFollowerFields(n, resp.term);
    LeaderForward(n.(votes := n.votes + {req.to}));
  }

  lemma AppendRespForward(n: Node, req: AppendReq, resp: AppendResp)
    requires n.log.Valid()
    ensures Forward(n, OnAppendResp(n, req, resp))
  {
    hide CommitUpTo, BackOff, Flush;
    BecomeFollowerFields(n, resp.term);
    var reached := req.prevIndex + |req.entries|;
    var held := if reached > Lookup(n.matchIndex, req.to) then reached else Lookup(n.matchIndex, req.to);
    CommitForward(n.(matchIndex := if reached > Lookup(n.matchIndex, req.to) then n.matchIndex[req.to := reached] else n.matchIndex,
                     nextIndex := n.nextIndex[req.to := held + 1]));
  }

  lemma ProposeForward(n: Node, p: Payload, call: nat)
    requires n.log.Valid()
    ensures Forward(n, Propose(n, p, call))
  {
    hide CommitUpTo;
    var e := Entry(n.term, n.log.LastIndex() + 1, p);
    CommitForward(n.(log := n.log.Append(e), waiters := n.waiters[e.index := call]));
  }

  ghost predicate ForwardAt(c: Cluster, d: Cluster, id: Id) {
    id in c.servers && id in d.servers && Forward(c.servers[id].raft, d.servers[id].raft)
  }

  lemma StandForward(c: Cluster, id: Id, j: Id)
    requires id in c.servers && c.servers[id].raft.log.Valid() && j in c.servers
    ensures ForwardAt(c, Stand(c, id), j)
  {
    hide StartElection, VoteRequests;
    LeaderForward(c.servers[id].raft);
  }

  lemma CampaignForward(c: Cluster, id: Id, j: Id)
    requires id in c.servers && c.servers[id].raft.log.Valid() && j in c.servers
    ensures ForwardAt(c, StepCampaign(c, id), j)
  {
    hide Stand, VoteRequests;
    StandForward(Update(c, id, c.servers[id].(raft := c.servers[id].raft.(recent := true))), id, j);
  }

  lemma VoteReplyForward(c: Cluster, req: VoteReq, resp: VoteResp, j: Id)
    requires req.from in c.servers && c.servers[req.from].raft.log.Valid() && j in c.servers
    ensures ForwardAt(c, StepVoteReply(c, req, resp), j)
  {
    hide Stand, OnVoteResp, BecomeFollower, Majority;
    var s := c.servers[req.from];
    VoteRespForward(s.raft, req, resp);
    BecomeFollowerFields(s.raft, resp.term);
    if req.round in s.rounds {
      var round := PreRound(s.raft.term, s.rounds[req.round].grants + {req.to});
      StandForward(Update(c, req.from, s.(rounds := s.rounds[req.round := round])), req.from, j);
    }
  }

  lemma AppendReplyForward(c: Cluster, req: AppendReq, resp: AppendResp, j: Id)
    requires req.from in c.servers && c.servers[req.from].raft.log.Valid() && j in c.servers
    ensures ForwardAt(c, StepAppendReply(c, req, resp), j)
  {
    hide OnAppendResp, BecomeFollower;
    var n := c.servers[req.from].raft;
    AppendRespForward(n, req, resp);
    BecomeFollowerFields(n, resp.term);
  }

  lemma AppendRequestForward(c: Cluster, req: AppendReq, j: Id)
    requires req.to in c.servers && c.servers[req.to].raft.log.Valid() && WellFormed(req) && j in c.servers
    requires HandleAppend(c.servers[req.to].raft, req).1.success ==>
               Brings(c.servers[req.to].raft, req, HandleAppend(c.servers[req.to].raft, req).0)
    ensures ForwardAt(c, StepAppendRequest(c, req), j)
  {
  }

  lemma VoteRequestForward(c: Cluster, req: VoteReq, j: Id)
    requires req.to in c.servers && j in c.servers
    ensures ForwardAt(c, StepVoteRequest(c, req), j)
  {
  }

  lemma SubmitForward(c: Cluster, id: Id, command: Command, j: Id)
    requires id in c.servers && c.servers[id].raft.log.Valid() && j in c.servers
    ensures ForwardAt(c, StepSubmit(c, id, command), j)
  {
    hide Propose;
    ProposeForward(c.servers[id].raft, Normal(command), c.calls);
  }

  lemma QuietForward(c: Cluster, id: Id, j: Id)
    requires id in c.servers && c.servers[id].raft.log.Valid() && j in c.servers
    ensures ForwardAt(c, StepExpire(c, id), j)
    ensures forall index :: ForwardAt(c, StepAbandon(c, id, index), j)
    ensures forall peer :: ForwardAt(c, StepReplicate(c, id, peer), j)
    ensures ForwardAt(c, StepReadCapture(c, id), j)
    ensures forall call | call in c.servers[id].readCalls ::
              ForwardAt(c, StepReadConfirm(c, id, call), j) && ForwardAt(c, StepReadReturn(c, id, call), j)
  {
    hide BuildAppend, BuildProbe, RLog.Valid;
  }

  lemma ApplyForward(c: Cluster, id: Id, j: Id)
    requires id in c.servers && c.servers[id].raft.log.Valid() && j in c.servers
    ensures ForwardAt(c, StepApplyTake(c, id), j)
    ensures c.servers[id].applying.Some? ==> ForwardAt(c, StepApplyRun(c, id), j)
  {
    hide RLog.At, RLog.Valid, ApplyEntry;
  }

  lemma FinishForward(c: Cluster, id: Id, j: Id)
    requires id in c.servers && j in c.servers && c.servers[id].applying.Some? && c.servers[id].applying.value.result.Some?
    ensures ForwardAt(c, StepApplyFinish(c, id), j)
  {
    hide Received;
  }

  /** Commit and apply indices never go back while the node is up. */
  lemma PositionsGrow(r: Run, i: nat, id: Id)
    requires IsRun(r) && i < |r.actions| && Present(r, i, id) && !Crashes(r.actions[i], id)
    ensures Present(r, i + 1, id) && Forward(NodeAt(r, i, id), NodeAt(r, i + 1, id))
  {
    hide IsRun, Sound, HandleAppend, Brings, Forward, StepCampaign, StepVoteRequest, StepVoteReply, StepAppendRequest, StepAppendReply,
         StepSubmit, StepExpire, StepAbandon, StepReplicate, StepReadCapture, StepReadConfirm, StepReadReturn,
         StepApplyTake, StepApplyRun, StepApplyFinish, StepCrash, MayReturn;
    var c, a := r.states[i], r.actions[i];
    StepOf(r, i);
    SoundLogs(c);
    match a
    case Campaign(k) => CampaignForward(c, k, id);
    case ReceiveVoteRequest(req) => VoteRequestForward(c, req, id);
    case ReceiveVoteReply(req, resp) => VoteReplyForward(c, req, resp, id);
    case ReceiveAppendRequest(req) => CommitClampSound(r, i, req); AppendRequestForward(c, req, id);
    case ReceiveAppendReply(req, resp) => AppendReplyForward(c, req, resp, id);
    case Submit(k, command) => SubmitForward(c, k, command, id);
    case Expire(k) => QuietForward(c, k, id);
    case Abandon(k, _) => QuietForward(c, k, id);
    case Replicate(k, _) => QuietForward(c, k, id);
    case ReadCapture(k) => QuietForward(c, k, id);
    case ReadConfirm(k, _) => QuietForward(c, k, id);
    case ReadReturn(k, _) => QuietForward(c, k, id);
    case ApplyTake(k) => ApplyForward(c, k, id);
    case ApplyRun(k) => ApplyForward(c, k, id);
    case ApplyFinish(k) => FinishForward(c, k, id);
    case Crash(k, midway) => CrashOthers(c, k, midway, id);
  }

  lemma CrashOthers(c: Cluster, k: Id, midway: Midway, id: Id)
    requires Enabled(c, Crash(k, midway)) && id in c.servers && k != id
    ensures ForwardAt(c, StepCrash(c, k, midway), id)
  {
  }

  lemma StepOf(r: Run, i: nat)
    requires IsRun(r) && i < |r.actions|
    ensures |r.states| == |r.actions| + 1 && Sound(r.states[i]) && Enabled(r.states[i], r.actions[i])
    ensures r.states[i + 1] == Step(r.states[i], r.actions[i])
  {
    assert StepAt(r, i);
  }

  lemma SoundLogs(c: Cluster)
    requires Sound(c)
    ensures forall id | id in c.servers :: c.servers[id].raft.log.Valid()
    ensures forall req | AppendRequest(req) in c.net :: WellFormed(req)
  {
  }

  lemma RunLength(r: Run)
    requires IsRun(r)
    ensures |r.states| == |r.actions| + 1
  {
  }
}

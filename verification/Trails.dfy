/**
  Ways on from a reachable state: runs prolonged by steps in which no server crashes,
  no call gives up and nobody writes, and what each of these steps brings.
 */
module Trails {
  import opened Wrappers
  import opened RaftTypes
  import opened CompactLog
  import opened Protocol
  import opened StoreSpec
  import opened Cluster
  import opened Simulation
  import opened Safety
  import opened Elections
  import PreVote
  import C = Consensus
  import R = Reigns

  /** Where a run has come to. */
  ghost function Now(r: Run): Cluster
    requires IsRun(r)
  {
    r.states[|r.actions|]
  }

  ghost function NodeOf(r: Run, id: Id): Node
    requires IsRun(r) && id in Now(r).servers
  {
    Now(r).servers[id].raft
  }

  /** No server crashes, and no call gives up. */
  predicate Patient(a: Action) {
    !a.Crash? && !a.Abandon?
  }

  /** Nor is there a new write. */
  predicate Calm(a: Action) {
    Patient(a) && !a.Submit?
  }

  ghost predicate Begins(r: Run, q: Run) {
    && |r.states| <= |q.states| && |r.actions| <= |q.actions|
    && (forall i | 0 <= i < |r.states| :: q.states[i] == r.states[i])
    && (forall i | 0 <= i < |r.actions| :: q.actions[i] == r.actions[i])
  }

  ghost predicate Prolongs(r: Run, q: Run) {
    Begins(r, q) && forall i | |r.actions| <= i < |q.actions| :: Calm(q.actions[i])
  }

  /** The run `q` prolongs `r` calmly. */
  ghost predicate Onward(r: Run, q: Run) {
    IsRun(r) && IsRun(q) && Prolongs(r, q)
  }

  /** The run `q` prolongs `r`, with writes perhaps, but without crashes. */
  ghost predicate Undisturbed(r: Run, q: Run) {
    IsRun(r) && IsRun(q) && Begins(r, q) && forall i | |r.actions| <= i < |q.actions| :: Patient(q.actions[i])
  }

  lemma NoWay(r: Run)
    requires IsRun(r)
    ensures Onward(r, r) && Sound(Now(r))
  {
    hide IsStep, Sound;
    SoundForever(r);
  }

  lemma UndisturbedOn(r: Run, q: Run, p: Run)
    requires Undisturbed(r, q) && Undisturbed(q, p)
    ensures Undisturbed(r, p)
  {
    hide IsRun;
  }

  lemma CalmUndisturbed(r: Run, q: Run)
    requires Onward(r, q)
    ensures Undisturbed(r, q)
  {
    hide IsRun;
  }

  lemma WayOn(r: Run, q: Run, p: Run)
    requires Onward(r, q) && Onward(q, p)
    ensures Onward(r, p)
  {
    hide IsRun;
  }

  /** One step. */
  lemma Take(r: Run, a: Action) returns (q: Run)
    requires IsRun(r) && Sound(Now(r)) && Enabled(Now(r), a)
    ensures IsRun(q) && Begins(r, q) && Now(q) == Step(Now(r), a) && Sound(Now(q)) && (Calm(a) ==> Onward(r, q))
    ensures |q.actions| == |r.actions| + 1 && q.actions[|r.actions|] == a
  {
    hide Sound, Enabled, Step, Init;
    var d := Step(Now(r), a);
    q := Run(r.states + [d], r.actions + [a]);
    forall i | 0 <= i < |q.actions|
      ensures StepAt(q, i)
    {
      if i < |r.actions| {
        assert StepAt(r, i);
      }
    }
    SoundForever(q);
  }

  // ---- What holds in every state ----

  /** A server of a cluster with fixed membership: what the rest needs of its node. */
  ghost predicate Fit(c: Cluster, id: Id)
    requires id in c.servers
  {
    var n := c.servers[id].raft;
    && n.id == id && n.log.Valid() && n.log.snapIndex == 0 && n.log.LastIndex() == |n.log.entries|
    && Peers(n) == c.servers.Keys - {id} && ClusterSize(n) == |c.servers| && Majority(n) == |c.servers| / 2 + 1
    && id in n.cfg.members && n.lastApplied <= n.commitIndex <= |n.log.entries|
    && (n.role == Leader ==> LeadsFit(n))
  }

  /** A leader's log ends in its own term, and it has an index for each peer. */
  ghost predicate LeadsFit(n: Node) {
    && n.nextIndex.Keys == Peers(n) && n.matchIndex.Keys == Peers(n)
    && |n.log.entries| > 0 && n.log.entries[|n.log.entries| - 1].term == n.term
    && (forall p | p in n.nextIndex :: 1 <= n.nextIndex[p] <= |n.log.entries| + 1)
    && (forall p | p in n.matchIndex :: n.matchIndex[p] <= |n.log.entries|)
  }

  lemma IsFit(r: Run, id: Id)
    requires IsRun(r) && id in Now(r).servers
    ensures Fit(Now(r), id)
  {
    hide IsRun, Follows, ServerOk, C.Inv, C.MemberOk, C.Extends, Sound, Majority, ClusterSize, LeadsFit;
    var hs, caps := RunSimulated(r);
    RunLength(r);
    var i := |r.actions|;
    NodeFacts(r, hs, caps, i, i, id);
    var x, s := ContextOf(Now(r), caps[i]), Now(r).servers[id];
    Parts(hs[i], x, s);
    LinkedLength(hs[i], x.ids, s.raft);
    CommitInside(x.proposals, s);
    Sizes(hs[i], x.ids, s.raft);
    if s.raft.role == Leader {
      LeaderFit(hs[i], x, s);
    }
  }

  lemma Sizes(h: History, ids: set<Id>, n: Node)
    requires Linked(h, ids, n)
    ensures Peers(n) == ids - {n.id} && ClusterSize(n) == |ids| && Majority(n) == |ids| / 2 + 1 && n.id in n.cfg.members
    ensures n.log.Valid() && n.log.snapIndex == 0
  {
    OthersSize(ids, n.id);
  }

  lemma LeaderFit(h: History, x: Context, s: Server)
    requires C.Inv(h) && ServerOk(h, x, s) && s.raft.role == Leader
    ensures LeadsFit(s.raft)
  {
    hide C.Inv, ServerOk, C.ReignOk, C.ReignShape, C.LogOk, C.MemberOk, SentOk, WaitersOk, ApplyOk, ReadsOk, CandidateOk, Linked;
    Parts(h, x, s);
    var n := s.raft;
    Sizes(h, x.ids, n);
    LinkedHere(h, x.ids, n);
    C.InvMember(h, n.id);
    R.LeaderOf(h, n.id);
    C.InvReign(h, n.term);
    EndsInOwnTerm(h, n.term);
  }

  lemma LinkedHere(h: History, ids: set<Id>, n: Node)
    requires Linked(h, ids, n)
    ensures n.id in h.members && h.members[n.id] == C.Member(n.term, n.votedFor, n.role, n.log.entries, n.commitIndex)
  {
  }

  lemma EndsInOwnTerm(h: History, t: nat)
    requires t in h.reigns && C.ReignShape(h.reigns, t)
    ensures var log := h.reigns[t].log; |log| > 0 && log[|log| - 1].term == t
  {
  }

  // ---- Frames ----

  /** Only servers in `ids` differ, and no message is gone. */
  ghost predicate Kept(c: Cluster, d: Cluster, ids: set<Id>) {
    && d.servers.Keys == c.servers.Keys && c.net <= d.net && c.calls <= d.calls
    && forall j | j in c.servers && j !in ids :: d.servers[j] == c.servers[j]
  }

  lemma KeptOn(c: Cluster, d: Cluster, e: Cluster, i: set<Id>, j: set<Id>)
    requires Kept(c, d, i) && Kept(d, e, j)
    ensures Kept(c, e, i + j)
  {
  }

  // ---- The steps, one by one ----

  lemma Rests(r: Run, id: Id) returns (q: Run)
    requires IsRun(r) && id in Now(r).servers
    ensures Onward(r, q) && Kept(Now(r), Now(q), {id})
    ensures Now(q).servers[id] == Now(r).servers[id].(raft := NodeOf(r, id).(recent := false))
  {
    hide IsRun, Sound;
    NoWay(r);
    q := Take(r, Expire(id));
  }

  /** A pre-vote round begins. */
  lemma RoundOpens(r: Run, id: Id) returns (q: Run)
    requires IsRun(r) && id in Now(r).servers && |Now(r).servers| != 1
    requires var n := NodeOf(r, id); n.role != Leader && !n.recent && !n.cfg.joining
    ensures Onward(r, q) && Kept(Now(r), Now(q), {id})
    ensures var n, k := NodeOf(r, id).(recent := true), Now(r).calls;
            && Now(q).servers[id].raft == n
            && k in Now(q).servers[id].rounds && Now(q).servers[id].rounds[k] == PreRound(n.term, {})
            && forall p | p in Peers(n) :: VoteRequest(Ask(n, p, true, k, n.term + 1)) in Now(q).net
  {
    hide IsRun, Sound, Stand, ClusterSize, Majority, RLog.LastIndex, RLog.LastTerm, RLog.Valid;
    NoWay(r);
    IsFit(r, id);
    SameSize(NodeOf(r, id), NodeOf(r, id).(recent := true));
    q := Take(r, Campaign(id));
  }

  /** Alone, a node leads at once. */
  lemma LeadsAlone(r: Run, id: Id) returns (q: Run)
    requires IsRun(r) && id in Now(r).servers && |Now(r).servers| == 1
    requires var n := NodeOf(r, id); n.role != Leader && !n.recent && !n.cfg.joining
    ensures Onward(r, q) && Kept(Now(r), Now(q), {id}) && NodeOf(q, id).role == Leader
  {
    hide IsRun, Sound, ClusterSize, Majority, RLog.LastIndex, RLog.LastTerm, RLog.Valid, CommitUpTo;
    NoWay(r);
    IsFit(r, id);
    SameSize(NodeOf(r, id), NodeOf(r, id).(recent := true));
    SameSize(NodeOf(r, id), BecomeCandidate(NodeOf(r, id).(recent := true)));
    q := Take(r, Campaign(id));
  }

  /** A vote request is answered, and the voter is what the answer makes of it. */
  lemma Answers(r: Run, req: VoteReq) returns (q: Run)
    requires IsRun(r) && req.to in Now(r).servers && VoteRequest(req) in Now(r).net
    ensures Onward(r, q) && Kept(Now(r), Now(q), {req.to})
    ensures var n := NodeOf(r, req.to);
            var (m, resp) := if req.preVote then (n, HandlePreVote(n, req)) else HandleVote(n, req);
            Now(q).servers[req.to] == Now(r).servers[req.to].(raft := m) && VoteReply(req, resp) in Now(q).net
  {
    hide IsRun, Sound, HandleVote, HandlePreVote;
    NoWay(r);
    q := Take(r, ReceiveVoteRequest(req));
    assert Now(r).servers[req.to := Now(r).servers[req.to]] == Now(r).servers;
  }

  /** The answer to a pre-vote arrives. */
  lemma PollCounted(r: Run, req: VoteReq, resp: VoteResp) returns (q: Run)
    requires IsRun(r) && req.from in Now(r).servers && VoteReply(req, resp) in Now(r).net && req.preVote
    requires |Now(r).servers| != 1 && req.round in Now(r).servers[req.from].rounds
    ensures Onward(r, q) && Kept(Now(r), Now(q), {req.from})
    ensures var s, n := Now(r).servers[req.from], NodeOf(r, req.from);
            && (resp.term > n.term ==> NodeOf(q, req.from) == BecomeFollower(n, resp.term))
            && (resp.term <= n.term && n.role != Leader && n.term == s.rounds[req.round].term && resp.granted ==>
                  var grants := s.rounds[req.round].grants + {req.to};
                  if 1 + |grants| >= Majority(n) then
                    && NodeOf(q, req.from) == BecomeCandidate(n)
                    && var m := BecomeCandidate(n); forall p | p in Peers(m) :: VoteRequest(Ask(m, p, false, m.term, m.term)) in Now(q).net
                  else
                    && NodeOf(q, req.from) == n && req.round in Now(q).servers[req.from].rounds
                    && Now(q).servers[req.from].rounds[req.round] == PreRound(n.term, grants))
  {
    hide IsRun, Sound, ClusterSize, Majority, RLog.LastIndex, RLog.LastTerm, RLog.Valid, BecomeFollower, BecomeLeader;
    NoWay(r);
    IsFit(r, req.from);
    SameSize(NodeOf(r, req.from), BecomeCandidate(NodeOf(r, req.from)));
    q := Take(r, ReceiveVoteReply(req, resp));
  }

  lemma VoteCounted(r: Run, req: VoteReq, resp: VoteResp) returns (q: Run)
    requires IsRun(r) && req.from in Now(r).servers && VoteReply(req, resp) in Now(r).net && !req.preVote
    ensures NodeOf(r, req.from).log.Valid()
    ensures Onward(r, q) && Kept(Now(r), Now(q), {req.from})
    ensures NodeOf(q, req.from) == OnVoteResp(NodeOf(r, req.from), req, resp)
  {
    hide IsRun, Sound, OnVoteResp, RLog.Valid, Majority;
    NoWay(r);
    IsFit(r, req.from);
    q := Take(r, ReceiveVoteReply(req, resp));
  }

  /** A leader's request goes out. */
  lemma Offers(r: Run, id: Id, p: Id) returns (q: Run, req: AppendReq)
    requires IsRun(r) && id in Now(r).servers && p in Now(r).servers && p != id && NodeOf(r, id).role == Leader
    ensures Fit(Now(r), id)
    ensures Onward(r, q) && Kept(Now(r), Now(q), {}) && AppendRequest(req) in Now(q).net
    ensures var n := NodeOf(r, id);
            && p in n.nextIndex && req.from == id && req.to == p && req.call == None && req.term == n.term
            && req.prevIndex == n.nextIndex[p] - 1 && req.prevIndex + |req.entries| == |n.log.entries|
            && req.leaderCommit == n.commitIndex
  {
    hide IsRun, Sound, Majority, ClusterSize;
    NoWay(r);
    IsFit(r, id);
    q := Take(r, Replicate(id, p));
    req := BuildAppend(NodeOf(r, id), p).value;
  }

  lemma Heard(r: Run, req: AppendReq) returns (q: Run)
    requires IsRun(r) && req.to in Now(r).servers && AppendRequest(req) in Now(r).net
    ensures NodeOf(r, req.to).log.Valid() && WellFormed(req)
    ensures Onward(r, q) && Kept(Now(r), Now(q), {req.to})
    ensures var (m, resp) := HandleAppend(NodeOf(r, req.to), req);
            Now(q).servers[req.to] == Now(r).servers[req.to].(raft := m) && AppendReply(req, resp) in Now(q).net
  {
    hide IsRun, RLog.Valid, HandleAppend, WellFormed;
    NoWay(r);
    q := Take(r, ReceiveAppendRequest(req));
  }

  lemma ReplyHeard(r: Run, req: AppendReq, resp: AppendResp) returns (q: Run)
    requires IsRun(r) && req.from in Now(r).servers && AppendReply(req, resp) in Now(r).net && req.call == None
    ensures NodeOf(r, req.from).log.Valid()
    ensures Onward(r, q) && Kept(Now(r), Now(q), {req.from})
    ensures Now(q).servers[req.from] == Now(r).servers[req.from].(raft := OnAppendResp(NodeOf(r, req.from), req, resp))
  {
    hide IsRun, Sound, OnAppendResp, RLog.Valid;
    NoWay(r);
    IsFit(r, req.from);
    q := Take(r, ReceiveAppendReply(req, resp));
  }

  /** A Propose call is made at a leader. */
  lemma Submits(r: Run, id: Id, command: Command) returns (q: Run)
    requires IsRun(r) && id in Now(r).servers && NodeOf(r, id).role == Leader
    ensures NodeOf(r, id).log.Valid() && Undisturbed(r, q) && Kept(Now(r), Now(q), {id})
    ensures |q.actions| == |r.actions| + 1 && q.actions[|r.actions|] == Submit(id, command)
    ensures Now(q).servers[id] == Now(r).servers[id].(raft := Propose(NodeOf(r, id), Normal(command), Now(r).calls))
  {
    hide IsRun, Sound, Propose, RLog.Valid;
    NoWay(r);
    IsFit(r, id);
    q := Take(r, Submit(id, command));
  }

  /** A ReadIndex call begins at a leader. */
  lemma ReadBegins(r: Run, id: Id) returns (q: Run)
    requires IsRun(r) && id in Now(r).servers && NodeOf(r, id).role == Leader
    ensures Onward(r, q) && Kept(Now(r), Now(q), {id}) && Now(r).calls in Now(q).servers[id].readCalls
    ensures |q.actions| == |r.actions| + 1 && q.actions[|r.actions|] == ReadCapture(id)
    ensures Now(q).servers[id] == Now(r).servers[id].(readCalls := Now(q).servers[id].readCalls)
    ensures Now(q).servers[id].readCalls[Now(r).calls].term == NodeOf(r, id).term
    ensures Now(q).servers[id].readCalls[Now(r).calls].acks == {}
    ensures Now(q).servers[id].readCalls[Now(r).calls].confirming == (|Now(r).servers| == 1)
  {
    hide IsRun, Sound, ClusterSize, Majority, RLog.Valid, LeadsFit;
    NoWay(r);
    IsFit(r, id);
    q := Take(r, ReadCapture(id));
  }

  /** It asks the peers. */
  lemma ReadAsks(r: Run, id: Id, call: nat) returns (q: Run)
    requires IsRun(r) && id in Now(r).servers && call in Now(r).servers[id].readCalls && !Now(r).servers[id].readCalls[call].confirming
    requires NodeOf(r, id).role == Leader && NodeOf(r, id).term == Now(r).servers[id].readCalls[call].term
    ensures Onward(r, q) && Kept(Now(r), Now(q), {id})
    ensures var s := Now(r).servers[id];
            Now(q).servers[id] == s.(readCalls := s.readCalls[call := s.readCalls[call].(confirming := true)])
    ensures forall p | p in Now(r).servers && p != id ::
              AppendRequest(BuildProbe(NodeOf(r, id), p, call, NodeOf(r, id).term)) in Now(q).net
  {
    hide IsRun, Sound, ClusterSize, Majority, RLog.Valid, LeadsFit, BuildProbe;
    NoWay(r);
    IsFit(r, id);
    q := Take(r, ReadConfirm(id, call));
  }

  /** A peer's answer to a read in its own term confirms it. */
  lemma ReadHears(r: Run, req: AppendReq, resp: AppendResp, call: nat) returns (q: Run)
    requires IsRun(r) && req.from in Now(r).servers && AppendReply(req, resp) in Now(r).net && req.call == Some(call)
    requires resp.term <= req.term && call in Now(r).servers[req.from].readCalls
    ensures Onward(r, q) && Kept(Now(r), Now(q), {req.from})
    ensures var s := Now(r).servers[req.from];
            Now(q).servers[req.from] == s.(readCalls := s.readCalls[call := s.readCalls[call].(acks := s.readCalls[call].acks + {req.to})])
  {
    hide IsRun, Sound;
    NoWay(r);
    q := Take(r, ReceiveAppendReply(req, resp));
  }

  lemma ReadEnds(r: Run, id: Id, call: nat) returns (q: Run)
    requires IsRun(r) && Enabled(Now(r), ReadReturn(id, call))
    ensures Onward(r, q) && |q.actions| == |r.actions| + 1 && q.actions[|r.actions|] == ReadReturn(id, call)
    ensures id in Now(r).servers && Kept(Now(r), Now(q), {id}) && NodeOf(q, id) == NodeOf(r, id)
  {
    hide IsRun, Sound;
    NoWay(r);
    q := Take(r, ReadReturn(id, call));
  }

  // ---- The apply loop ----

  /** The loop has nothing in hand, has come to `applied`, and nothing else is different but calls answered. */
  predicate AppliedTo(s: Server, t: Server, applied: nat) {
    && t.applying == None && t.raft.lastApplied == applied && t.rounds == s.rounds && t.readCalls == s.readCalls
    && t.raft == s.raft.(lastApplied := applied, waiters := t.raft.waiters, sent := t.raft.sent)
  }

  /** What is in hand is run and announced. */
  lemma HandEmptied(r: Run, id: Id) returns (q: Run)
    requires IsRun(r) && id in Now(r).servers
    ensures Onward(r, q) && id in Now(q).servers && Kept(Now(r), Now(q), {id})
    ensures AppliedTo(Now(r).servers[id], Now(q).servers[id], Now(q).servers[id].raft.lastApplied)
    ensures Now(r).servers[id].applying.Some? ==> NodeOf(q, id).lastApplied >= Now(r).servers[id].applying.value.entry.index
    ensures NodeOf(q, id).lastApplied >= NodeOf(r, id).lastApplied
  {
    hide IsRun, Sound, Prolongs, Kept;
    NoWay(r);
    if Now(r).servers[id].applying == None {
      q := r;
      KeptSame(Now(r), id);
    } else {
      var p := HandRun(r, id);
      q := HandDone(p, id);
      WayOn(r, p, q);
      KeptOn(Now(r), Now(p), Now(q), {id}, {id});
      assert {id} + {id} == {id};
    }
  }

  lemma KeptSame(c: Cluster, id: Id)
    ensures Kept(c, c, {id})
  {
  }

  lemma HandDone(r: Run, id: Id) returns (q: Run)
    requires IsRun(r) && id in Now(r).servers && Now(r).servers[id].applying.Some? && Now(r).servers[id].applying.value.result.Some?
    ensures Onward(r, q) && id in Now(q).servers && Kept(Now(r), Now(q), {id})
    ensures AppliedTo(Now(r).servers[id], Now(q).servers[id], Now(q).servers[id].raft.lastApplied)
    ensures NodeOf(q, id).lastApplied >= Now(r).servers[id].applying.value.entry.index
    ensures NodeOf(q, id).lastApplied >= NodeOf(r, id).lastApplied
  {
    hide IsRun, Sound, Deliver;
    NoWay(r);
    var s := Now(r).servers[id];
    var a := s.applying.value;
    if a.waiter.Some? {
      DeliverFields(if a.entry.index > s.raft.lastApplied then s.raft.(lastApplied := a.entry.index) else s.raft,
                    a.waiter.value, Applied(a.result.value));
    }
    q := Take(r, ApplyFinish(id));
  }

  lemma DeliverFields(n: Node, call: nat, o: Outcome)
    ensures Deliver(n, call, o) == n.(sent := Deliver(n, call, o).sent)
  {
    hide Received;
  }

  lemma HandRun(r: Run, id: Id) returns (q: Run)
    requires IsRun(r) && id in Now(r).servers && Now(r).servers[id].applying.Some?
    ensures Onward(r, q) && id in Now(q).servers && Kept(Now(r), Now(q), {id})
    ensures var s, t := Now(r).servers[id], Now(q).servers[id];
            && t.applying.Some? && t.applying.value.result.Some? && t.applying.value.entry == s.applying.value.entry
            && t == s.(applying := t.applying, store := t.store)
  {
    hide IsRun, Sound, ApplyEntry;
    NoWay(r);
    q := r;
    if Now(r).servers[id].applying.value.result == None {
      q := Take(r, ApplyRun(id));
    }
  }

  /** The next entry is taken. */
  lemma NextTaken(r: Run, id: Id) returns (q: Run)
    requires IsRun(r) && id in Now(r).servers && Now(r).servers[id].applying == None && NodeOf(r, id).lastApplied < NodeOf(r, id).commitIndex
    ensures Onward(r, q) && Kept(Now(r), Now(q), {id}) && Now(q).servers[id].applying.Some?
    ensures var s, t := Now(r).servers[id], Now(q).servers[id];
            && t.applying.value.entry.index == s.raft.lastApplied + 1 && t.raft == s.raft.(waiters := t.raft.waiters)
            && t.rounds == s.rounds && t.readCalls == s.readCalls
  {
    hide IsRun, Sound, ClusterSize, Majority, LeadsFit;
    NoWay(r);
    IsFit(r, id);
    q := Take(r, ApplyTake(id));
  }
}

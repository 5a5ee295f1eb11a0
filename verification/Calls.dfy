/**
  Where a Propose call is: at every moment after it was made, and until its node
  crashes, it waits at the entry it appended, or is in the apply loop's hands, or has
  been told its outcome, or has given up; and never in two of these places. So no call
  is forgotten: once its entry is applied, or its node leads no more, it is told.
 */
module Calls {
  import opened Wrappers
  import opened RaftTypes
  import opened CompactLog
  import opened Protocol
  import opened StoreSpec
  import opened Cluster
  import opened Simulation
  import opened Safety
  import opened Reads
  import opened Proposals
  import PreVote
  import C = Consensus

  ghost predicate Waits(n: Node, call: nat) {
    exists i | i in n.waiters :: n.waiters[i] == call
  }

  predicate InHand(s: Server, call: nat) {
    s.applying.Some? && s.applying.value.waiter == Some(call)
  }

  predicate Told(n: Node, call: nat) {
    |Received(n, call)| > 0
  }

  // ---- What a step does to the calls ----

  /** Each call waits on and has received what it had, or it is told, once, that the node leads no more. */
  ghost predicate Settled(n: Node, m: Node) {
    && m.lastApplied == n.lastApplied && n.term <= m.term
    && (n.role == Follower ==> m.role == Follower || n.term < m.term)
    && ((m.waiters == n.waiters && m.sent == n.sent) || TellsAll(n, m))
  }

  ghost predicate TellsAll(n: Node, m: Node) {
    m.waiters == map[] && m.sent == Flush(n).sent && (m.role == Follower || n.term < m.term)
  }

  lemma SameSettled(n: Node, m: Node)
    requires m.waiters == n.waiters && m.sent == n.sent && m.lastApplied == n.lastApplied && m.role == n.role && m.term == n.term
    ensures Settled(n, m)
  {
    hide Flush;
  }

  lemma FollowerSettled(n: Node, t: nat)
    ensures Settled(n, BecomeFollower(n, t)) && BecomeFollower(n, t).role == Follower
  {
    hide Flush;
    FlushFields(n);
  }

  lemma FlushFields(n: Node)
    ensures var m := Flush(n); m == n.(waiters := map[], sent := m.sent)
  {
  }

  lemma LeadSettled(n: Node)
    requires n.log.Valid() && n.role == Candidate
    ensures Settled(n, BecomeLeader(n))
  {
    hide CommitUpTo, RLog.LastIndex, RLog.Valid, Flush;
  }

  lemma StandSettledNode(n: Node)
    requires n.log.Valid()
    ensures Settled(n, StartElection(n))
  {
    hide CommitUpTo, ClusterSize, RLog.LastIndex, RLog.Valid, Flush;
  }

  lemma VoteSettled(n: Node, req: VoteReq)
    ensures Settled(n, HandleVote(n, req).0)
  {
    hide BecomeFollower, Flush;
    FollowerSettled(n, req.term);
  }

  lemma VoteRespSettled(n: Node, req: VoteReq, resp: VoteResp)
    requires n.log.Valid()
    ensures Settled(n, OnVoteResp(n, req, resp))
  {
    hide BecomeFollower, BecomeLeader, Majority, RLog.Valid, Flush;
    FollowerSettled(n, resp.term);
    var m := n.(votes := n.votes + {req.to});
    if n.role == Candidate {
      LeadSettled(m);
      FlushSame(n, m);
    }
  }

  lemma FlushSame(n: Node, m: Node)
    requires m.waiters == n.waiters && m.sent == n.sent
    ensures Flush(m).sent == Flush(n).sent
  {
  }

  lemma AppendSettled(n: Node, req: AppendReq)
    requires n.log.Valid() && WellFormed(req)
    ensures Settled(n, HandleAppend(n, req).0)
  {
    hide BecomeFollower, Flush, MergeEntries, Mismatch, Fits, Merge, WellFormed, RLog.LastIndex;
    FollowerSettled(n, req.term);
    var m := Acknowledge(n, req);
    AcknowledgeFields(n, req);
    if req.term >= n.term && !Mismatch(m, req) {
      FitsAfter(m, req);
      MergeTouches(m, req.entries);
    }
  }

  lemma AppendRespSettled(n: Node, req: AppendReq, resp: AppendResp)
    requires n.log.Valid()
    ensures Settled(n, OnAppendResp(n, req, resp))
  {
    hide CommitUpTo, BecomeFollower, BackOff, RLog.Valid, RLog.LastIndex, Flush;
    FollowerSettled(n, resp.term);
  }

  // ---- The cluster ----

  /** The apply loop has the same entry and the same call in hand. */
  predicate SameHand(s: Server, t: Server) {
    && (t.applying.Some? <==> s.applying.Some?)
    && (s.applying.Some? ==> t.applying.value.waiter == s.applying.value.waiter && t.applying.value.entry == s.applying.value.entry)
  }

  /** The step leaves in hand what is in hand, and settles or keeps every call. */
  ghost predicate Settles(c: Cluster, d: Cluster) {
    && d.servers.Keys == c.servers.Keys
    && forall id | id in c.servers :: SameHand(c.servers[id], d.servers[id]) && Settled(c.servers[id].raft, d.servers[id].raft)
  }

  lemma SettlesOne(c: Cluster, id: Id, s: Server)
    requires id in c.servers && SameHand(c.servers[id], s) && Settled(c.servers[id].raft, s.raft)
    ensures forall d: Cluster | d.servers == c.servers[id := s] :: Settles(c, d)
  {
    hide Settled;
    forall j | j in c.servers
      ensures Settled(c.servers[j].raft, c.servers[j].raft)
    {
      SameSettled(c.servers[j].raft, c.servers[j].raft);
    }
  }

  lemma SettlesNothing(c: Cluster, d: Cluster)
    requires d.servers == c.servers
    ensures Settles(c, d)
  {
    hide Settled;
    forall j | j in c.servers
      ensures Settled(c.servers[j].raft, c.servers[j].raft)
    {
      SameSettled(c.servers[j].raft, c.servers[j].raft);
    }
  }

  lemma StandSettles(c: Cluster, id: Id, n: Node, rounds: map<nat, PreRound>, d: Cluster)
    requires id in c.servers && n == c.servers[id].raft.(recent := n.recent) && n.log.Valid()
    requires d.servers == c.servers[id := c.servers[id].(raft := StartElection(n), rounds := rounds)]
    ensures Settles(c, d)
  {
    hide StartElection, Settled, Settles, RLog.Valid;
    StandSettledNode(n);
    SettledFrom(c.servers[id].raft, n, StartElection(n));
    SettlesOne(c, id, c.servers[id].(raft := StartElection(n), rounds := rounds));
  }

  lemma SettledFrom(n: Node, k: Node, m: Node)
    requires k == n.(recent := k.recent) && Settled(k, m)
    ensures Settled(n, m)
  {
    hide Flush;
    FlushSame(n, k);
  }

  lemma CampaignSettles(c: Cluster, id: Id)
    requires id in c.servers && c.servers[id].raft.log.Valid()
    ensures Settles(c, StepCampaign(c, id))
  {
    hide StartElection, Settled, Settles, RLog.Valid, VoteRequests, ClusterSize, MayCampaign;
    var s := c.servers[id];
    var n := s.raft.(recent := true);
    SameSettled(s.raft, n);
    SettlesOne(c, id, s.(raft := n));
    SettlesOne(c, id, s.(raft := n, rounds := s.rounds[c.calls := PreRound(n.term, {})]));
    StandSettles(c, id, n, s.rounds, Stand(Update(c, id, s.(raft := n)), id));
  }

  lemma VoteRequestSettles(c: Cluster, req: VoteReq)
    requires req.to in c.servers
    ensures Settles(c, StepVoteRequest(c, req))
  {
    hide HandleVote, HandlePreVote, Settled, Settles;
    VoteSettled(c.servers[req.to].raft, req);
    SettlesOne(c, req.to, c.servers[req.to].(raft := HandleVote(c.servers[req.to].raft, req).0));
    SettlesNothing(c, Send(c, {VoteReply(req, HandlePreVote(c.servers[req.to].raft, req))}));
  }

  lemma VoteReplySettles(c: Cluster, req: VoteReq, resp: VoteResp)
    requires req.from in c.servers && c.servers[req.from].raft.log.Valid()
    ensures Settles(c, StepVoteReply(c, req, resp))
  {
    hide OnVoteResp, StepPreVoteReply, Settled, Settles, RLog.Valid;
    VoteRespSettled(c.servers[req.from].raft, req, resp);
    SettlesOne(c, req.from, c.servers[req.from].(raft := OnVoteResp(c.servers[req.from].raft, req, resp)));
    PreVoteReplySettles(c, req, resp);
  }

  lemma PreVoteReplySettles(c: Cluster, req: VoteReq, resp: VoteResp)
    requires req.from in c.servers && c.servers[req.from].raft.log.Valid()
    ensures Settles(c, StepPreVoteReply(c, req, resp))
  {
    hide StartElection, BecomeFollower, Majority, Settled, Settles, RLog.Valid, VoteRequests;
    var s := c.servers[req.from];
    SettlesNothing(c, c);
    FollowerSettled(s.raft, resp.term);
    SettlesOne(c, req.from, s.(raft := BecomeFollower(s.raft, resp.term)));
    if req.round in s.rounds {
      var round := PreRound(s.raft.term, s.rounds[req.round].grants + {req.to});
      var t := s.(rounds := s.rounds[req.round := round]);
      SameSettled(s.raft, s.raft);
      SettlesOne(c, req.from, t);
      StandSettles(c, req.from, s.raft, t.rounds, Stand(Update(c, req.from, t), req.from));
    }
  }

  lemma AppendRequestSettles(c: Cluster, req: AppendReq)
    requires req.to in c.servers && c.servers[req.to].raft.log.Valid() && WellFormed(req)
    ensures Settles(c, StepAppendRequest(c, req))
  {
    hide HandleAppend, Settled, Settles, RLog.Valid, WellFormed;
    AppendSettled(c.servers[req.to].raft, req);
    SettlesOne(c, req.to, c.servers[req.to].(raft := HandleAppend(c.servers[req.to].raft, req).0));
  }

  lemma AppendReplySettles(c: Cluster, req: AppendReq, resp: AppendResp)
    requires req.from in c.servers && c.servers[req.from].raft.log.Valid()
    ensures Settles(c, StepAppendReply(c, req, resp))
  {
    hide OnAppendResp, BecomeFollower, Settled, Settles, RLog.Valid;
    var s := c.servers[req.from];
    SettlesNothing(c, c);
    AppendRespSettled(s.raft, req, resp);
    SettlesOne(c, req.from, s.(raft := OnAppendResp(s.raft, req, resp)));
    FollowerSettled(s.raft, resp.term);
    SettlesOne(c, req.from, s.(raft := BecomeFollower(s.raft, resp.term)));
    SameSettled(s.raft, s.raft);
    if req.call.Some? && req.call.value in s.readCalls {
      var call := req.call.value;
      SettlesOne(c, req.from, s.(readCalls := s.readCalls[call := s.readCalls[call].(acks := s.readCalls[call].acks + {req.to})]));
    }
  }

  /** Steps that do nothing to the waiting calls of any node, and those four that do. */
  predicate Touching(a: Action) {
    a.Submit? || a.Abandon? || a.ApplyTake? || a.ApplyFinish? || a.Crash?
  }

  lemma NetworkSettles(c: Cluster, a: Action)
    requires Sound(c) && Enabled(c, a) && Networked(a)
    ensures Settles(c, StepNetwork(c, a))
  {
    hide Enabled, Settles, Sound, StepVoteRequest, StepVoteReply, StepAppendRequest, StepAppendReply, WellFormed, RLog.Valid, BuildAppend;
    SoundLogs(c);
    Addressed(c, a);
    match a
    case ReceiveVoteRequest(req) => VoteRequestSettles(c, req);
    case ReceiveVoteReply(req, resp) => VoteReplySettles(c, req, resp);
    case ReceiveAppendRequest(req) => AppendRequestSettles(c, req);
    case ReceiveAppendReply(req, resp) => AppendReplySettles(c, req, resp);
    case Replicate(id, peer) => SettlesNothing(c, StepReplicate(c, id, peer));
  }

  lemma LocalSettles(c: Cluster, a: Action)
    requires Sound(c) && Enabled(c, a) && !Networked(a) && !Touching(a) && !a.Campaign?
    ensures Settles(c, Step(c, a))
  {
    hide Settles, Settled, Sound, MayReturn, RLog.Valid, ApplyEntry, Majority, ClusterSize, BuildProbe;
    var s, t := c.servers[a.id], Step(c, a).servers[a.id];
    SameSettled(s.raft, t.raft);
    SettlesOne(c, a.id, t);
  }

  // ---- Where a call is ----

  datatype Place = Pending | Ongoing | Replied | Away

  ghost function PlaceOf(s: Server, call: nat): Place {
    if Waits(s.raft, call) then Pending else if InHand(s, call) then Ongoing else if Told(s.raft, call) then Replied else Away
  }

  /** The call is in one place at most, waits only at the entry it appended, and is told one outcome at most. */
  ghost predicate Sorted(s: Server, call: nat, e: Entry) {
    && |Received(s.raft, call)| <= 1
    && !(Waits(s.raft, call) && InHand(s, call)) && !(Waits(s.raft, call) && Told(s.raft, call)) && !(InHand(s, call) && Told(s.raft, call))
    && (Waits(s.raft, call) ==> WaitsFor(s.raft, call, e))
    && (InHand(s, call) ==> s.applying.value.entry == e)
  }

  /** It waits at its entry, which is in the log of the leader that appended it. */
  predicate WaitsFor(n: Node, call: nat, e: Entry) {
    && n.role == Leader && n.term == e.term && e.index in n.waiters && n.waiters[e.index] == call
    && 0 < e.index <= |n.log.entries| && n.log.entries[e.index - 1] == e
  }

  lemma CallsSorted(h: History, x: Context, s: Server, call: nat, e: Entry)
    requires ServerOk(h, x, s) && call in x.proposals && x.proposals[call].entry == e
    ensures Sorted(s, call, e) && forall i | i in s.raft.waiters && s.raft.waiters[i] == call :: i == e.index
  {
    hide Linked, CandidateOk, LeaderOk, ReadsOk, Answered, ResultAt, StoreAfter;
    var n := s.raft;
    LinkedContiguous(h, x.ids, n);
    assert s.applying.Some? ==> s.applying.value.entry.index == n.lastApplied + 1;
    forall i | i in n.waiters && n.waiters[i] == call
      ensures i == e.index && n.term == e.term && Received(n, call) == [] && 0 < i <= |n.log.entries| && n.log.entries[i - 1] == e
    {
      assert Waiting(x.proposals, n, i);
    }
  }

  // ---- One step, one call ----

  lemma SettledPlace(s: Server, t: Server, call: nat, e: Entry)
    requires SameHand(s, t) && Settled(s.raft, t.raft) && Sorted(s, call, e)
    ensures PlaceOf(s, call) == Pending ==> PlaceOf(t, call) == Pending || (PlaceOf(t, call) == Replied && Received(t.raft, call) == [NotLeader])
    ensures PlaceOf(s, call) != Pending ==> PlaceOf(t, call) == PlaceOf(s, call) && Received(t.raft, call) == Received(s.raft, call)
  {
    if s.raft.waiters == t.raft.waiters && s.raft.sent == t.raft.sent {
    } else {
      FlushTold(s.raft, call);
    }
  }

  lemma FlushTold(n: Node, call: nat)
    ensures Received(Flush(n), call) == Received(n, call) + if Waits(n, call) then [NotLeader] else []
  {
  }

  lemma AbandonPlace(s: Server, index: nat, call: nat, e: Entry)
    requires Sorted(s, call, e) && forall i | i in s.raft.waiters && s.raft.waiters[i] == call :: i == e.index
    ensures var t := s.(raft := s.raft.(waiters := s.raft.waiters - {index}));
            && Received(t.raft, call) == Received(s.raft, call)
            && PlaceOf(t, call) == if PlaceOf(s, call) == Pending && index == e.index then Away else PlaceOf(s, call)
  {
    WaitsWithout(s.raft, index, call, e.index);
  }

  /** Without the entry at `index`, a call that waits at `k` alone waits exactly if it did and `k` is another. */
  lemma WaitsWithout(n: Node, index: nat, call: nat, k: nat)
    requires forall i | i in n.waiters && n.waiters[i] == call :: i == k
    ensures Waits(n.(waiters := n.waiters - {index}), call) <==> Waits(n, call) && k != index
  {
    var m := n.(waiters := n.waiters - {index});
    if Waits(n, call) && k != index {
      assert k in m.waiters && m.waiters[k] == call;
    }
    if Waits(m, call) {
      var i :| i in m.waiters && m.waiters[i] == call;
      assert i in n.waiters && n.waiters[i] == call;
    }
  }

  lemma SubmitPlace(n: Node, m: Node, s: Server, call: nat, other: nat, index: nat)
    requires n == s.raft && m.waiters == n.waiters[index := other] && m.sent == n.sent && index !in n.waiters && other != call
    ensures PlaceOf(s.(raft := m), call) == PlaceOf(s, call) && Received(m, call) == Received(n, call)
  {
    assert forall i | i in n.waiters :: i in m.waiters && m.waiters[i] == n.waiters[i];
  }

  lemma TakePlace(s: Server, t: Server, e: Entry, call: nat, mine: Entry)
    requires Sorted(s, call, mine) && s.applying == None && forall i | i in s.raft.waiters && s.raft.waiters[i] == call :: i == mine.index
    requires var idx := s.raft.lastApplied + 1;
             && t.raft == s.raft.(waiters := s.raft.waiters - {idx})
             && t.applying == Some(Applying(e, if idx in s.raft.waiters then Some(s.raft.waiters[idx]) else None, None))
    ensures Received(t.raft, call) == Received(s.raft, call)
    ensures PlaceOf(t, call) == if PlaceOf(s, call) == Pending && mine.index == s.raft.lastApplied + 1 then Ongoing else PlaceOf(s, call)
  {
    WaitsWithout(s.raft, s.raft.lastApplied + 1, call, mine.index);
  }

  lemma FinishPlace(s: Server, t: Server, call: nat, mine: Entry)
    requires Sorted(s, call, mine) && s.applying.Some? && s.applying.value.result.Some? && t.applying == None
    requires t.raft.waiters == s.raft.waiters
    requires t.raft.sent == if s.applying.value.waiter.Some?
                            then Deliver(s.raft, s.applying.value.waiter.value, Applied(s.applying.value.result.value)).sent
                            else s.raft.sent
    ensures PlaceOf(s, call) == Ongoing ==> PlaceOf(t, call) == Replied && Received(t.raft, call) == [Applied(s.applying.value.result.value)]
    ensures PlaceOf(s, call) != Ongoing ==> PlaceOf(t, call) == PlaceOf(s, call) && Received(t.raft, call) == Received(s.raft, call)
  {
  }

  /** What a step may make of a call's place. */
  ghost predicate Passes(s: Server, t: Server, call: nat, e: Entry, a: Action, id: Id) {
    match PlaceOf(s, call)
    case Pending =>
      if a == Abandon(id, e.index) then PlaceOf(t, call) == Away
      else
        || PlaceOf(t, call) == Pending
        || (PlaceOf(t, call) == Ongoing && a == ApplyTake(id))
        || (PlaceOf(t, call) == Replied && Received(t.raft, call) == [NotLeader] && (t.raft.role == Follower || s.raft.term < t.raft.term))
    case Ongoing => PlaceOf(t, call) == Ongoing || (PlaceOf(t, call) == Replied && a == ApplyFinish(id) && Received(t.raft, call) != [NotLeader])
    case Replied => PlaceOf(t, call) == Replied && Received(t.raft, call) == Received(s.raft, call)
    case Away => PlaceOf(t, call) == Away
  }

  lemma SamePasses(s: Server, call: nat, e: Entry, a: Action, id: Id)
    requires !(PlaceOf(s, call) == Pending && a == Abandon(id, e.index))
    ensures Passes(s, s, call, e, a, id)
  {
    hide PlaceOf;
  }

  lemma SettledPasses(s: Server, t: Server, call: nat, e: Entry, a: Action, id: Id)
    requires SameHand(s, t) && Settled(s.raft, t.raft) && Sorted(s, call, e) && !a.Abandon?
    ensures Passes(s, t, call, e, a, id) && t.raft.lastApplied == s.raft.lastApplied
  {
    SettledPlace(s, t, call, e);
    hide PlaceOf;
    if s.raft.waiters == t.raft.waiters && s.raft.sent == t.raft.sent {
      KeptPlace(s, t, call);
    }
  }

  lemma KeptPlace(s: Server, t: Server, call: nat)
    requires SameHand(s, t) && t.raft.waiters == s.raft.waiters && t.raft.sent == s.raft.sent
    ensures PlaceOf(t, call) == PlaceOf(s, call)
  {
  }

  lemma SubmitPasses(c: Cluster, k: Id, command: Command, id: Id, call: nat, e: Entry)
    requires k in c.servers && id in c.servers && c.servers[k].raft.log.Valid() && call != c.calls
    requires forall i | i in c.servers[k].raft.waiters :: i <= c.servers[k].raft.log.LastIndex()
    ensures var s, t := c.servers[id], StepSubmit(c, k, command).servers[id];
            Passes(s, t, call, e, Submit(k, command), id) && t.raft.lastApplied == s.raft.lastApplied
  {
    hide AdvanceCommit, RLog.LastIndex, PlaceOf;
    var s := c.servers[id];
    SamePasses(s, call, e, Submit(k, command), id);
    if k == id {
      SubmitPlace(s.raft, Propose(s.raft, Normal(command), c.calls), s, call, c.calls, s.raft.log.LastIndex() + 1) by {
        AdvanceKeeps(s.raft.log, s.raft, Normal(command), c.calls);
      }
      AdvanceKeeps(s.raft.log, s.raft, Normal(command), c.calls);
    }
  }

  lemma AdvanceKeeps(l: RLog, n: Node, payload: Payload, call: nat)
    requires n.log == l && l.Valid()
    ensures var m := Propose(n, payload, call);
            && m.waiters == n.waiters[l.LastIndex() + 1 := call] && m.sent == n.sent && m.lastApplied == n.lastApplied
            && m.log == l.Append(Entry(n.term, l.LastIndex() + 1, payload)) && m.role == n.role && m.term == n.term
  {
    hide CommitUpTo, RLog.LastIndex, RLog.Valid;
  }

  lemma AbandonPasses(c: Cluster, k: Id, index: nat, id: Id, call: nat, e: Entry)
    requires k in c.servers && id in c.servers && Sorted(c.servers[id], call, e)
    requires forall i | i in c.servers[id].raft.waiters && c.servers[id].raft.waiters[i] == call :: i == e.index
    ensures var s, t := c.servers[id], StepAbandon(c, k, index).servers[id];
            Passes(s, t, call, e, Abandon(k, index), id) && t.raft.lastApplied == s.raft.lastApplied
  {
    var s := c.servers[id];
    if k == id {
      AbandonPlace(s, index, call, e);
    }
    hide PlaceOf;
  }

  lemma TakePasses(c: Cluster, k: Id, id: Id, call: nat, e: Entry)
    requires Enabled(c, ApplyTake(k)) && id in c.servers && Sorted(c.servers[id], call, e) && c.servers[k].raft.log.Valid()
    requires c.servers[k].raft.log.At(c.servers[k].raft.lastApplied + 1).Some?
    requires forall i | i in c.servers[id].raft.waiters && c.servers[id].raft.waiters[i] == call :: i == e.index
    ensures var s, t := c.servers[id], StepApplyTake(c, k).servers[id];
            Passes(s, t, call, e, ApplyTake(k), id) && t.raft.lastApplied == s.raft.lastApplied
  {
    hide PlaceOf, RLog.At, RLog.Valid;
    var s, t := c.servers[id], StepApplyTake(c, k).servers[id];
    SamePasses(s, call, e, ApplyTake(k), id);
    if k == id {
      TakePlace(s, t, s.raft.log.At(s.raft.lastApplied + 1).value, call, e);
    }
  }

  lemma FinishPasses(c: Cluster, k: Id, id: Id, call: nat, e: Entry)
    requires Enabled(c, ApplyFinish(k)) && id in c.servers && Sorted(c.servers[id], call, e)
    requires c.servers[k].applying.value.entry.index == c.servers[k].raft.lastApplied + 1
    requires c.servers[k].raft.lastApplied + 1 !in c.servers[k].raft.waiters
    requires PlaceOf(c.servers[id], call) == Pending ==> WaitsFor(c.servers[id].raft, call, e) && c.servers[id].raft.lastApplied < e.index
    ensures var s, t := c.servers[id], StepApplyFinish(c, k).servers[id];
            Passes(s, t, call, e, ApplyFinish(k), id) && (PlaceOf(t, call) == Pending ==> t.raft.lastApplied < e.index)
  {
    hide PlaceOf;
    var s, t := c.servers[id], StepApplyFinish(c, k).servers[id];
    SamePasses(s, call, e, ApplyFinish(k), id);
    if k == id {
      FinishPlace(s, t, call, e);
    }
  }

  /** A call waits for an entry still to be applied, until something happens to it. */
  lemma StepPasses(h: History, x: Context, c: Cluster, a: Action, id: Id, call: nat, e: Entry)
    requires Sound(c) && Enabled(c, a) && id in c.servers && !Crashes(a, id) && call < c.calls
    requires forall k | k in c.servers :: ServerOk(h, x, c.servers[k])
    requires call in x.proposals && x.proposals[call].entry == e
    requires PlaceOf(c.servers[id], call) == Pending ==> c.servers[id].raft.lastApplied < e.index
    ensures id in Step(c, a).servers
    ensures var s, t := c.servers[id], Step(c, a).servers[id];
            Passes(s, t, call, e, a, id) && (PlaceOf(t, call) == Pending ==> t.raft.lastApplied < e.index)
  {
    hide Enabled, Sound, ServerOk, Passes, PlaceOf, Sorted, Settles, Settled, SameHand, Step;
    var s := c.servers[id];
    CallsSorted(h, x, s, call, e);
    SoundLogs(c);
    PreVote.KeysStay(c, a);
    var t := Step(c, a).servers[id];
    if !Touching(a) {
      StepSettles(c, a);
      SettlesAt(c, Step(c, a), id);
      SettledPasses(s, t, call, e, a, id);
      PendingStays(s, t, call, e, a, id);
    } else {
      ActsAt(c, a);
      TouchPasses(h, x, c, a, id, call, e);
    }
  }

  lemma ActsAt(c: Cluster, a: Action)
    requires Enabled(c, a) && Touching(a)
    ensures a.id in c.servers
  {
    hide Reaches;
  }

  lemma TouchPasses(h: History, x: Context, c: Cluster, a: Action, id: Id, call: nat, e: Entry)
    requires Sound(c) && Enabled(c, a) && id in c.servers && !Crashes(a, id) && call < c.calls && Touching(a) && id in Step(c, a).servers
    requires a.id in c.servers && ServerOk(h, x, c.servers[a.id])
    requires Sorted(c.servers[id], call, e)
    requires forall i | i in c.servers[id].raft.waiters && c.servers[id].raft.waiters[i] == call :: i == e.index
    requires PlaceOf(c.servers[id], call) == Pending ==> c.servers[id].raft.lastApplied < e.index
    ensures var s, t := c.servers[id], Step(c, a).servers[id];
            Passes(s, t, call, e, a, id) && (PlaceOf(t, call) == Pending ==> t.raft.lastApplied < e.index)
  {
    hide *;
    if a.Submit? {
      SubmitTouch(h, x, c, a, id, call, e);
    } else if a.Abandon? {
      AbandonTouch(c, a, id, call, e);
    } else if a.ApplyTake? {
      TakeTouch(h, x, c, a, id, call, e);
    } else if a.ApplyFinish? {
      FinishTouch(h, x, c, a, id, call, e);
    } else {
      TouchKinds(a);
      CrashTouches(c, a, id, call, e);
    }
  }

  lemma TouchKinds(a: Action)
    requires Touching(a)
    ensures a.Submit? || a.Abandon? || a.ApplyTake? || a.ApplyFinish? || a.Crash?
  {
  }

  lemma AbandonTouch(c: Cluster, a: Action, id: Id, call: nat, e: Entry)
    requires a.Abandon? && Sound(c) && Enabled(c, a) && id in c.servers && id in Step(c, a).servers
    requires Sorted(c.servers[id], call, e)
    requires forall i | i in c.servers[id].raft.waiters && c.servers[id].raft.waiters[i] == call :: i == e.index
    requires PlaceOf(c.servers[id], call) == Pending ==> c.servers[id].raft.lastApplied < e.index
    ensures var s, t := c.servers[id], Step(c, a).servers[id];
            Passes(s, t, call, e, a, id) && (PlaceOf(t, call) == Pending ==> t.raft.lastApplied < e.index)
  {
    hide *;
    TouchStep(c, a);
    AbandonPasses(c, a.id, a.index, id, call, e);
    PendingStays(c.servers[id], Step(c, a).servers[id], call, e, a, id);
  }

  lemma FinishTouch(h: History, x: Context, c: Cluster, a: Action, id: Id, call: nat, e: Entry)
    requires a.ApplyFinish? && Sound(c) && Enabled(c, a) && id in c.servers && id in Step(c, a).servers
    requires a.id in c.servers && ServerOk(h, x, c.servers[a.id])
    requires Sorted(c.servers[id], call, e)
    requires forall i | i in c.servers[id].raft.waiters && c.servers[id].raft.waiters[i] == call :: i == e.index
    requires PlaceOf(c.servers[id], call) == Pending ==> c.servers[id].raft.lastApplied < e.index
    ensures var s, t := c.servers[id], Step(c, a).servers[id];
            Passes(s, t, call, e, a, id) && (PlaceOf(t, call) == Pending ==> t.raft.lastApplied < e.index)
  {
    hide *;
    LoopStep(c, a);
    HandIndex(h, x, c.servers[a.id]);
    PendingWaits(c.servers[id], call, e);
    FinishPasses(c, a.id, id, call, e);
  }

  lemma CrashTouches(c: Cluster, a: Action, id: Id, call: nat, e: Entry)
    requires a.Crash? && Sound(c) && Enabled(c, a) && id in c.servers && id in Step(c, a).servers && !Crashes(a, id)
    requires Sorted(c.servers[id], call, e)
    requires forall i | i in c.servers[id].raft.waiters && c.servers[id].raft.waiters[i] == call :: i == e.index
    requires PlaceOf(c.servers[id], call) == Pending ==> c.servers[id].raft.lastApplied < e.index
    ensures var s, t := c.servers[id], Step(c, a).servers[id];
            Passes(s, t, call, e, a, id) && (PlaceOf(t, call) == Pending ==> t.raft.lastApplied < e.index)
  {
    hide *;
    TouchStep(c, a);
    CrashTouch(c, a, id);
    CrashElsewhere(c, a.id, a.midway, id);
    SamePasses(c.servers[id], call, e, a, id);
  }

  lemma SubmitTouch(h: History, x: Context, c: Cluster, a: Action, id: Id, call: nat, e: Entry)
    requires a.Submit? && Sound(c) && Enabled(c, a) && id in c.servers && call < c.calls && id in Step(c, a).servers
    requires a.id in c.servers && ServerOk(h, x, c.servers[a.id])
    requires Sorted(c.servers[id], call, e)
    requires forall i | i in c.servers[id].raft.waiters && c.servers[id].raft.waiters[i] == call :: i == e.index
    requires PlaceOf(c.servers[id], call) == Pending ==> c.servers[id].raft.lastApplied < e.index
    ensures var s, t := c.servers[id], Step(c, a).servers[id];
            Passes(s, t, call, e, a, id) && (PlaceOf(t, call) == Pending ==> t.raft.lastApplied < e.index)
  {
    hide *;
    SoundLogs(c);
    TouchStep(c, a);
    WaitsInLog(h, x, c.servers[a.id]);
    SubmitPasses(c, a.id, a.command, id, call, e);
    PendingStays(c.servers[id], Step(c, a).servers[id], call, e, a, id);
  }

  lemma TakeTouch(h: History, x: Context, c: Cluster, a: Action, id: Id, call: nat, e: Entry)
    requires a.ApplyTake? && Sound(c) && Enabled(c, a) && id in c.servers && id in Step(c, a).servers
    requires a.id in c.servers && ServerOk(h, x, c.servers[a.id])
    requires Sorted(c.servers[id], call, e)
    requires forall i | i in c.servers[id].raft.waiters && c.servers[id].raft.waiters[i] == call :: i == e.index
    requires PlaceOf(c.servers[id], call) == Pending ==> c.servers[id].raft.lastApplied < e.index
    ensures var s, t := c.servers[id], Step(c, a).servers[id];
            Passes(s, t, call, e, a, id) && (PlaceOf(t, call) == Pending ==> t.raft.lastApplied < e.index)
  {
    hide *;
    SoundLogs(c);
    LoopStep(c, a);
    CommittedPresent(h, x, c.servers[a.id]);
    TakePasses(c, a.id, id, call, e);
    PendingStays(c.servers[id], Step(c, a).servers[id], call, e, a, id);
  }

  lemma CrashTouch(c: Cluster, a: Action, id: Id)
    requires a.Crash? && !Crashes(a, id)
    ensures a.id != id && a != Abandon(id, 0)
    ensures forall i :: a != Abandon(id, i)
  {
  }

  lemma TouchStep(c: Cluster, a: Action)
    requires Sound(c) && Enabled(c, a)
    ensures match a
            case Submit(k, command) => k in c.servers && c.servers[k].raft.log.Valid() && Step(c, a) == StepSubmit(c, k, command)
            case Abandon(k, index) => k in c.servers && Step(c, a) == StepAbandon(c, k, index)
            case Crash(k, midway) =>
              k in c.servers && c.servers[k].raft.log.Valid() && Reaches(c.net, c.servers[k].raft, midway) && Step(c, a) == StepCrash(c, k, midway)
            case _ => true
    ensures Touching(a) <==> a.Submit? || a.Abandon? || a.ApplyTake? || a.ApplyFinish? || a.Crash?
  {
    hide Sound, Reaches, StepSubmit, StepAbandon, StepApplyTake, StepApplyFinish, StepCrash, RLog.Valid;
    SoundLogs(c);
  }

  lemma LoopStep(c: Cluster, a: Action)
    requires Sound(c) && Enabled(c, a) && (a.ApplyTake? || a.ApplyFinish?)
    ensures match a
            case ApplyTake(k) =>
              k in c.servers && c.servers[k].raft.log.Valid() && Step(c, a) == StepApplyTake(c, k)
              && c.servers[k].raft.lastApplied < c.servers[k].raft.commitIndex
            case ApplyFinish(k) =>
              k in c.servers && c.servers[k].applying.Some? && c.servers[k].applying.value.result.Some? && Step(c, a) == StepApplyFinish(c, k)
            case _ => true
    ensures Touching(a)
  {
    hide Sound, StepApplyTake, StepApplyFinish, RLog.Valid;
    SoundLogs(c);
  }

  lemma StepSettles(c: Cluster, a: Action)
    requires Sound(c) && Enabled(c, a) && !Touching(a)
    ensures Settles(c, Step(c, a))
  {
    hide Settles, Sound, StepNetwork, StepCampaign;
    SoundLogs(c);
    if Networked(a) {
      NetworkSettles(c, a);
    } else if a.Campaign? {
      CampaignSettles(c, a.id);
    } else {
      LocalSettles(c, a);
    }
  }

  lemma SettlesAt(c: Cluster, d: Cluster, id: Id)
    requires Settles(c, d) && id in c.servers
    ensures id in d.servers && SameHand(c.servers[id], d.servers[id]) && Settled(c.servers[id].raft, d.servers[id].raft)
  {
    hide Settled;
  }

  lemma PendingStays(s: Server, t: Server, call: nat, e: Entry, a: Action, id: Id)
    requires Passes(s, t, call, e, a, id) && t.raft.lastApplied == s.raft.lastApplied
    requires PlaceOf(s, call) == Pending ==> s.raft.lastApplied < e.index
    ensures PlaceOf(t, call) == Pending ==> t.raft.lastApplied < e.index
  {
    hide PlaceOf;
  }

  lemma PendingWaits(s: Server, call: nat, e: Entry)
    requires Sorted(s, call, e)
    ensures PlaceOf(s, call) == Pending ==> WaitsFor(s.raft, call, e)
  {
    hide WaitsFor;
  }

  lemma WaitsInLog(h: History, x: Context, s: Server)
    requires ServerOk(h, x, s) && s.raft.log.Valid()
    ensures forall i | i in s.raft.waiters :: i <= s.raft.log.LastIndex()
  {
    hide CandidateOk, LeaderOk, ReadsOk, SentOk, ApplyOk;
    forall i | i in s.raft.waiters
      ensures i <= s.raft.log.LastIndex()
    {
      assert Waiting(x.proposals, s.raft, i);
    }
  }

  lemma HandIndex(h: History, x: Context, s: Server)
    requires ServerOk(h, x, s) && s.applying.Some?
    ensures s.applying.value.entry.index == s.raft.lastApplied + 1 && s.raft.lastApplied + 1 !in s.raft.waiters
  {
    hide CandidateOk, LeaderOk, ReadsOk, SentOk, WaitersOk, ResultAt, StoreAfter;
  }

  lemma CrashElsewhere(c: Cluster, k: Id, midway: Midway, id: Id)
    requires Enabled(c, Crash(k, midway)) && k != id && id in c.servers
    ensures StepCrash(c, k, midway).servers[id] == c.servers[id]
  {
    hide Crashed, Halted;
  }

  // ---- Over a run ----

  /** In step `j` the call gives up: it is waiting, and does so no more. */
  ghost predicate GivesUp(r: Run, j: nat, id: Id, call: nat, e: Entry) {
    && j < |r.actions| && Present(r, j, id) && r.actions[j] == Abandon(id, e.index)
    && e.index in NodeAt(r, j, id).waiters && NodeAt(r, j, id).waiters[e.index] == call
  }

  ghost predicate GaveUp(r: Run, s: nat, i: nat, id: Id, call: nat, e: Entry) {
    exists j | s < j < i :: GivesUp(r, j, id, call, e)
  }

  /** The entry that a call made in step `s` appends. */
  ghost function Appended(r: Run, s: nat, id: Id, command: Command): Entry
    requires Present(r, s, id)
  {
    Entry(NodeAt(r, s, id).term, |LogAt(r, s, id)| + 1, Normal(command))
  }

  /** All that is claimed of a call at one moment. */
  ghost predicate Accounted(r: Run, s: nat, i: nat, id: Id, call: nat, e: Entry)
    requires Present(r, i, id)
  {
    var v := r.states[i].servers[id];
    && Sorted(v, call, e)
    && (PlaceOf(v, call) == Away <==> GaveUp(r, s, i, id, call, e))
    && (PlaceOf(v, call) == Pending ==> v.raft.lastApplied < e.index)
    && (Received(v.raft, call) == [NotLeader] ==> e.term < v.raft.term || (e.term == v.raft.term && v.raft.role == Follower))
    && e.term <= v.raft.term
  }

  lemma JustSubmitted(r: Run, s: nat, id: Id, command: Command)
    requires IsRun(r) && s < |r.actions| && s + 1 < |r.states| && r.actions[s] == Submit(id, command) && Present(r, s, id)
    ensures Present(r, s + 1, id) && Accounted(r, s, s + 1, id, r.states[s].calls, Appended(r, s, id, command))
  {
    hide IsRun, Sound, Accounted, Sorted, PlaceOf, Step;
    var call, e := r.states[s].calls, Appended(r, s, id, command);
    RunLength(r);
    StepOf(r, s);
    SoundLogs(r.states[s]);
    PreVote.KeysStay(r.states[s], r.actions[s]);
    SubmitRecorded(r, s, id, command);
    SubmitQueues(r, s, id, command);
    SortedAt(r, s + 1, id, call, e);
    NowAccounted(r, s, id, call, e);
  }

  lemma SortedAt(r: Run, i: nat, id: Id, call: nat, e: Entry)
    requires IsRun(r) && Present(r, i, id) && call in r.states[i].proposals && r.states[i].proposals[call].entry == e
    ensures Sorted(r.states[i].servers[id], call, e)
    ensures forall k | k in NodeAt(r, i, id).waiters && NodeAt(r, i, id).waiters[k] == call :: k == e.index
  {
    hide IsRun, Follows, ServerOk, Sorted, C.Inv, C.MemberOk, C.Extends;
    var hs, caps := RunSimulated(r);
    NodeFacts(r, hs, caps, i, i, id);
    CallsSorted(hs[i], ContextOf(r.states[i], caps[i]), r.states[i].servers[id], call, e);
  }

  lemma SubmitQueues(r: Run, s: nat, id: Id, command: Command)
    requires IsRun(r) && |r.states| == |r.actions| + 1 && s < |r.actions| && r.actions[s] == Submit(id, command) && Present(r, s, id)
    ensures Present(r, s + 1, id)
    ensures var n, e := NodeAt(r, s + 1, id), Appended(r, s, id, command);
            && e.index in n.waiters && n.waiters[e.index] == r.states[s].calls && n.lastApplied < e.index && n.term == e.term
  {
    hide IsRun, Sound, RLog.Valid, RLog.LastIndex, Propose;
    StepOf(r, s);
    SoundLogs(r.states[s]);
    WholeLog(r, s, id);
    PositionOrder(r, s, id);
    TouchStep(r.states[s], r.actions[s]);
    var n := NodeAt(r, s, id);
    AdvanceKeeps(n.log, n, Normal(command), r.states[s].calls);
  }

  lemma NowAccounted(r: Run, s: nat, id: Id, call: nat, e: Entry)
    requires Present(r, s + 1, id) && Sorted(r.states[s + 1].servers[id], call, e)
    requires var n := NodeAt(r, s + 1, id); e.index in n.waiters && n.waiters[e.index] == call && n.lastApplied < e.index && n.term == e.term
    ensures Accounted(r, s, s + 1, id, call, e)
  {
  }

  /** A follower stays one, within a term. */
  lemma RoleStep(c: Cluster, a: Action, id: Id)
    requires Sound(c) && Enabled(c, a) && id in c.servers && !Crashes(a, id) && id in Step(c, a).servers
    ensures var n, m := c.servers[id].raft, Step(c, a).servers[id].raft;
            n.term <= m.term && (n.role == Follower ==> m.role == Follower || n.term < m.term)
  {
    hide Sound, Enabled, Step, Settles, Settled;
    if !Touching(a) {
      StepSettles(c, a);
      SettlesAt(c, Step(c, a), id);
      SettledRole(c.servers[id].raft, Step(c, a).servers[id].raft);
    } else {
      TouchRole(c, a, id);
    }
  }

  lemma SettledRole(n: Node, m: Node)
    requires Settled(n, m)
    ensures n.term <= m.term && (n.role == Follower ==> m.role == Follower || n.term < m.term)
  {
    hide Flush;
  }

  lemma TouchRole(c: Cluster, a: Action, id: Id)
    requires Sound(c) && Enabled(c, a) && id in c.servers && !Crashes(a, id) && id in Step(c, a).servers && Touching(a)
    ensures var n, m := c.servers[id].raft, Step(c, a).servers[id].raft; n.term == m.term && n.role == m.role
  {
    hide *;
    TouchStep(c, a);
    TouchKinds(a);
    if a.Submit? {
      SubmitRole(c, a.id, a.command, id);
    } else if a.Crash? {
      CrashTouch(c, a, id);
      CrashElsewhere(c, a.id, a.midway, id);
    } else if a.Abandon? {
      AbandonRole(c, a.id, a.index, id);
    } else if a.ApplyTake? {
      LoopStep(c, a);
      TakeRole(c, a.id, id);
    } else {
      LoopStep(c, a);
      FinishRole(c, a.id, id);
    }
  }

  lemma SubmitRole(c: Cluster, k: Id, command: Command, id: Id)
    requires k in c.servers && id in c.servers && c.servers[k].raft.log.Valid()
    ensures var n, d := c.servers[id].raft, StepSubmit(c, k, command);
            id in d.servers && d.servers[id].raft.term == n.term && d.servers[id].raft.role == n.role
  {
    hide Propose, RLog.Valid, RLog.LastIndex;
    AdvanceKeeps(c.servers[k].raft.log, c.servers[k].raft, Normal(command), c.calls);
  }

  lemma AbandonRole(c: Cluster, k: Id, index: nat, id: Id)
    requires k in c.servers && id in c.servers
    ensures var n, d := c.servers[id].raft, StepAbandon(c, k, index);
            id in d.servers && d.servers[id].raft.term == n.term && d.servers[id].raft.role == n.role
  {
  }

  lemma TakeRole(c: Cluster, k: Id, id: Id)
    requires k in c.servers && id in c.servers && c.servers[k].raft.log.Valid()
    ensures var n, d := c.servers[id].raft, StepApplyTake(c, k);
            id in d.servers && d.servers[id].raft.term == n.term && d.servers[id].raft.role == n.role
  {
    hide RLog.At, RLog.Valid;
  }

  lemma FinishRole(c: Cluster, k: Id, id: Id)
    requires k in c.servers && id in c.servers && c.servers[k].applying.Some? && c.servers[k].applying.value.result.Some?
    ensures var n, d := c.servers[id].raft, StepApplyFinish(c, k);
            id in d.servers && d.servers[id].raft.term == n.term && d.servers[id].raft.role == n.role
  {
    hide Received;
  }

  lemma NextAccounted(r: Run, s: nat, i: nat, id: Id, call: nat, e: Entry)
    requires s < i < |r.actions| && |r.states| == |r.actions| + 1 && Present(r, i, id) && Present(r, i + 1, id)
    requires Accounted(r, s, i, id, call, e) && Sorted(r.states[i + 1].servers[id], call, e)
    requires var v, w := r.states[i].servers[id], r.states[i + 1].servers[id];
             && Passes(v, w, call, e, r.actions[i], id) && (PlaceOf(w, call) == Pending ==> w.raft.lastApplied < e.index)
             && v.raft.term <= w.raft.term && (v.raft.role == Follower ==> w.raft.role == Follower || v.raft.term < w.raft.term)
    ensures Accounted(r, s, i + 1, id, call, e)
  {
    hide PlaceOf, Received;
    var v, w := r.states[i].servers[id], r.states[i + 1].servers[id];
    GaveUpNext(r, s, i, id, call, e);
    PendingIff(v, call, e);
    NotTold(w, call, e);
  }

  lemma GaveUpNext(r: Run, s: nat, i: nat, id: Id, call: nat, e: Entry)
    requires s < i
    ensures GaveUp(r, s, i + 1, id, call, e) <==> GaveUp(r, s, i, id, call, e) || GivesUp(r, i, id, call, e)
  {
    hide GivesUp;
  }

  lemma PendingIff(v: Server, call: nat, e: Entry)
    requires Sorted(v, call, e)
    ensures PlaceOf(v, call) == Pending <==> e.index in v.raft.waiters && v.raft.waiters[e.index] == call
    ensures PlaceOf(v, call) != Replied <==> Received(v.raft, call) == []
  {
  }

  lemma NotTold(v: Server, call: nat, e: Entry)
    requires Sorted(v, call, e)
    ensures PlaceOf(v, call) != Replied <==> Received(v.raft, call) == []
  {
  }

  /**
    From the moment it is made and until its node crashes, a call is in exactly one
    place: it waits at its entry, which is not applied yet; the apply loop has it in
    hand with its entry; it has been told exactly one outcome; or it has given up.
    Being told that the node leads no more means that it does not, in the call's term.
   */
  lemma {:induction false} CallAccounted(r: Run, s: nat, id: Id, command: Command, i: nat)
    requires IsRun(r) && s < |r.actions| && r.actions[s] == Submit(id, command) && s < i < |r.states| && NoCrash(r, s + 1, i, id)
    ensures Present(r, s, id) && Present(r, i, id)
    ensures Accounted(r, s, i, id, r.states[s].calls, Appended(r, s, id, command))
    decreases i
  {
    hide IsRun, Sound, Accounted, Sorted, PlaceOf, Step, Passes, Enabled;
    RunLength(r);
    SubmitPresent(r, s, id, command);
    if i == s + 1 {
      JustSubmitted(r, s, id, command);
    } else {
      CallAccounted(r, s, id, command, i - 1);
      var call, e := r.states[s].calls, Appended(r, s, id, command);
      AccountedStep(r, s, i - 1, id, command);
      NextAccounted(r, s, i - 1, id, call, e);
    }
  }

  lemma SubmitPresent(r: Run, s: nat, id: Id, command: Command)
    requires IsRun(r) && s < |r.actions| && r.actions[s] == Submit(id, command)
    ensures |r.states| == |r.actions| + 1 && Present(r, s, id)
  {
    hide IsRun, Sound;
    StepOf(r, s);
  }

  lemma AccountedStep(r: Run, s: nat, i: nat, id: Id, command: Command)
    requires IsRun(r) && s < i < |r.actions| && |r.states| == |r.actions| + 1 && r.actions[s] == Submit(id, command)
    requires Present(r, s, id) && Present(r, i, id) && !Crashes(r.actions[i], id)
    requires Accounted(r, s, i, id, r.states[s].calls, Appended(r, s, id, command))
    ensures var call, e := r.states[s].calls, Appended(r, s, id, command);
            && Present(r, i + 1, id) && Sorted(r.states[i + 1].servers[id], call, e)
            && var v, w := r.states[i].servers[id], r.states[i + 1].servers[id];
            && Passes(v, w, call, e, r.actions[i], id) && (PlaceOf(w, call) == Pending ==> w.raft.lastApplied < e.index)
            && v.raft.term <= w.raft.term && (v.raft.role == Follower ==> w.raft.role == Follower || v.raft.term < w.raft.term)
  {
    hide IsRun, Sound, Enabled, Step, Accounted, Passes, PlaceOf, Sorted, WaitsFor;
    var call, e := r.states[s].calls, Appended(r, s, id, command);
    StepOf(r, i);
    SubmitRecorded(r, s, id, command);
    ProposalsLast(r, s + 1, i, call);
    ProposalsLast(r, s + 1, i + 1, call);
    Numbered(r, i, call);
    PreVote.KeysStay(r.states[i], r.actions[i]);
    SortedAt(r, i + 1, id, call, e);
    PlacePasses(r, i, id, call, e) by { AccountedWaits(r, s, i, id, call, e); }
    RoleStep(r.states[i], r.actions[i], id);
  }

  lemma AccountedWaits(r: Run, s: nat, i: nat, id: Id, call: nat, e: Entry)
    requires Present(r, i, id) && Accounted(r, s, i, id, call, e)
    ensures PlaceOf(r.states[i].servers[id], call) == Pending ==> NodeAt(r, i, id).lastApplied < e.index
  {
    hide PlaceOf, Sorted;
  }

  lemma PlacePasses(r: Run, i: nat, id: Id, call: nat, e: Entry)
    requires IsRun(r) && i < |r.actions| && |r.states| == |r.actions| + 1 && Present(r, i, id) && Present(r, i + 1, id)
    requires !Crashes(r.actions[i], id) && call in r.states[i].proposals && r.states[i].proposals[call].entry == e && call < r.states[i].calls
    requires PlaceOf(r.states[i].servers[id], call) == Pending ==> NodeAt(r, i, id).lastApplied < e.index
    ensures var v, w := r.states[i].servers[id], r.states[i + 1].servers[id];
            Passes(v, w, call, e, r.actions[i], id) && (PlaceOf(w, call) == Pending ==> w.raft.lastApplied < e.index)
  {
    hide IsRun, Follows, ServerOk, Passes, PlaceOf, Sound, Enabled, Step, C.Inv, Related;
    StepOf(r, i);
    var hs, caps := RunSimulated(r);
    PreVote.RelatedAt(r, hs, caps, i);
    AllServers(hs[i], caps[i], r.states[i]);
    StepPasses(hs[i], ContextOf(r.states[i], caps[i]), r.states[i], r.actions[i], id, call, e);
  }

  lemma AllServers(h: History, caps: map<nat, History>, c: Cluster)
    requires Related(h, caps, c)
    ensures forall k | k in c.servers :: ServerOk(h, ContextOf(c, caps), c.servers[k])
  {
    hide C.Inv, ServerOk, MsgOk, CapturesOk, ProposalsOk;
  }

  /**
    So no call is forgotten: once its entry is applied, or its node does not lead in the
    call's term any more, it has been told or has given up, unless its entry is just
    being applied.
   */
  lemma CallNotForgotten(r: Run, s: nat, id: Id, command: Command, i: nat)
    requires IsRun(r) && s < |r.actions| && r.actions[s] == Submit(id, command) && s < i < |r.states| && NoCrash(r, s + 1, i, id)
    ensures Present(r, s, id) && Present(r, i, id)
    ensures var v, call, e := r.states[i].servers[id], r.states[s].calls, Appended(r, s, id, command);
            (v.raft.lastApplied >= e.index || v.raft.role != Leader || v.raft.term != e.term)
            && (v.applying == None || v.applying.value.entry != e) ==>
              |Received(v.raft, call)| == 1 || GaveUp(r, s, i, id, call, e)
  {
    hide IsRun, GaveUp, Received;
    CallAccounted(r, s, id, command, i);
  }
}

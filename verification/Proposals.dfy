/**
  What a Propose call returns: the result of the very entry it appended, and for
  a counter a number that no other call receives.
 */
module Proposals {
  import opened Wrappers
  import opened RaftTypes
  import opened CompactLog
  import opened Protocol
  import opened StoreSpec
  import opened Counters
  import opened Decimal
  import opened Cluster
  import opened Simulation
  import opened Safety
  import C = Consensus
  import R = Reigns

  // ---- A result means a commit ----

  /** `call` has received `res` at node `id`. */
  ghost predicate Returned(r: Run, i: nat, id: Id, call: nat, res: Result)
    requires Present(r, i, id)
  {
    Applied(res) in Received(NodeAt(r, i, id), call)
  }

  /** A result that was given is the result of a committed entry, whichever node's log one looks at, and whenever. */
  lemma AnsweredAgrees(r: Run, hs: seq<History>, caps: seq<map<nat, History>>, i: nat, e: Entry, res: Result, j: nat, b: Id)
    requires |hs| == |caps| == |r.states| && Follows(r, hs, caps) && i < |r.states| && Answered(hs[i], e, res)
    requires Present(r, j, b) && e.index <= CommitAt(r, j, b)
    ensures 0 < e.index <= |LogAt(r, j, b)| && LogAt(r, j, b)[e.index - 1] == e
    ensures res == ResultAt(LogAt(r, j, b), e.index)
  {
    hide Follows, Related, ServerOk, C.Inv, C.MemberOk, C.Safe, C.Extends, ResultAt, StoreAfter;
    var last, k := if i <= j then j else i, e.index;
    NodeFacts(r, hs, caps, j, last, b);
    LaterExtends(r, hs, caps, i, last);
    AnsweredGrows(hs[i], hs[last], e, res);
    var h := hs[last];
    var t :| t in h.reigns && 0 < k <= h.reigns[t].commit <= |h.reigns[t].log| && h.reigns[t].log[k - 1] == e
      && res == ResultAt(h.reigns[t].log, k);
    C.InvReign(h, t);
    R.ReignSafe(h, t);
    var u := Voucher(hs[j], h, b);
    VouchersAgree(h, t, h.reigns[t].log, h.reigns[t].commit, u, LogAt(r, j, b), CommitAt(r, j, b), k);
    ResultPrefix(h.reigns[t].log, LogAt(r, j, b), k);
    assert e == h.reigns[t].log[..k][k - 1] == LogAt(r, j, b)[..k][k - 1];
  }

  lemma CallFacts(h: History, x: Context, s: Server, call: nat)
    requires SentOk(h, x.proposals, s.raft)
    ensures |Received(s.raft, call)| <= 1
    ensures forall res | Applied(res) in Received(s.raft, call) ::
              call in x.proposals && x.proposals[call].node == s.raft.id && Answered(h, x.proposals[call].entry, res)
  {
  }

  /**
    A call's channel receives at most one outcome, so no send ever blocks; and a
    result is that of the entry the call appended, in every log that has it committed.
   */
  lemma OwnResult(r: Run, i: nat, id: Id, call: nat, res: Result, j: nat, b: Id)
    requires IsRun(r) && Present(r, i, id) && Present(r, j, b)
    ensures |Received(NodeAt(r, i, id), call)| <= 1
    ensures Returned(r, i, id, call, res) ==>
              && call in r.states[i].proposals && r.states[i].proposals[call].node == id
              && var e := r.states[i].proposals[call].entry;
                 e.index <= CommitAt(r, j, b) ==>
                   0 < e.index <= |LogAt(r, j, b)| && LogAt(r, j, b)[e.index - 1] == e
                   && res == ResultAt(LogAt(r, j, b), e.index)
  {
    hide IsRun, Follows, ServerOk, C.Inv, C.MemberOk, C.Extends, ResultAt, Answered;
    var hs, caps := RunSimulated(r);
    NodeFacts(r, hs, caps, i, i, id);
    var x, s := ContextOf(r.states[i], caps[i]), r.states[i].servers[id];
    Parts(hs[i], x, s);
    CallFacts(hs[i], x, s, call);
    if Returned(r, i, id, call, res) && x.proposals[call].entry.index <= CommitAt(r, j, b) {
      AnsweredAgrees(r, hs, caps, i, x.proposals[call].entry, res, j, b);
    }
  }

  // ---- What a step adds to the logs and to the channels ----

  /** `m` is `n` with at most harmless entries added, and no result given to a call. */
  ghost predicate Quiet(n: Node, m: Node, key: string) {
    && (Tame(n.log.entries, key) ==> Tame(m.log.entries, key))
    && forall call, res | Applied(res) in Received(m, call) :: Applied(res) in Received(n, call)
  }

  lemma {:induction false} MergeTame(l: RLog, es: seq<Entry>, key: string)
    requires l.Valid() && Fits(l, es) && Tame(l.entries, key) && Tame(es, key)
    ensures Tame(Merge(l, es).entries, key)
  {
    if |es| > 0 {
      MergeTame(l, es[..|es| - 1], key);
    }
  }

  lemma FollowerQuiet(n: Node, t: nat, key: string)
    ensures Quiet(n, BecomeFollower(n, t), key)
  {
  }

  lemma LeadQuiet(n: Node, key: string)
    requires n.log.Valid()
    ensures Quiet(n, BecomeLeader(n), key)
  {
    hide CommitUpTo, RLog.Valid, RLog.LastIndex;
    if Tame(n.log.entries, key) {
      AppendTame(n.log.entries, Entry(n.term, n.log.LastIndex() + 1, Noop), key);
    }
  }

  lemma LeaderQuiet(n: Node, key: string)
    requires n.log.Valid()
    ensures Quiet(n, BecomeLeader(n), key) && Quiet(n, StartElection(n), key)
  {
    hide BecomeLeader, RLog.Valid, ClusterSize, Tame;
    LeadQuiet(n, key);
    LeadQuiet(BecomeCandidate(n), key);
  }

  lemma VoteQuiet(n: Node, req: VoteReq, key: string)
    ensures Quiet(n, HandleVote(n, req).0, key)
  {
    hide BecomeFollower;
    FollowerQuiet(n, req.term, key);
  }

  lemma VoteRespQuiet(n: Node, req: VoteReq, resp: VoteResp, key: string)
    requires n.log.Valid()
    ensures Quiet(n, OnVoteResp(n, req, resp), key)
  {
    hide BecomeFollower, BecomeLeader, Majority, RLog.Valid;
    FollowerQuiet(n, resp.term, key);
    LeaderQuiet(n.(votes := n.votes + {req.to}), key);
  }

  lemma AppendQuiet(n: Node, req: AppendReq, key: string)
    requires n.log.Valid() && WellFormed(req) && Tame(req.entries, key)
    ensures Quiet(n, HandleAppend(n, req).0, key)
  {
    hide BecomeFollower, Flush, MergeEntries, Mismatch, Fits, Merge, Tame, WellFormed;
    FollowerQuiet(n, req.term, key);
    var m := Acknowledge(n, req);
    AcknowledgeFields(n, req);
    if req.term >= n.term && !Mismatch(m, req) {
      FitsAfter(m, req);
      MergeTouches(m, req.entries);
      if Tame(n.log.entries, key) {
        MergeTame(m.log, req.entries, key);
      }
    }
  }

  lemma AppendRespQuiet(n: Node, req: AppendReq, resp: AppendResp, key: string)
    requires n.log.Valid()
    ensures Quiet(n, OnAppendResp(n, req, resp), key)
  {
    hide CommitUpTo, BecomeFollower, BackOff, RLog.Valid, Tame;
    FollowerQuiet(n, resp.term, key);
  }

  // ---- The cluster ----

  ghost predicate QuietAt(c: Cluster, d: Cluster, key: string) {
    d.servers.Keys == c.servers.Keys && forall id | id in c.servers :: Quiet(c.servers[id].raft, d.servers[id].raft, key)
  }

  /** The requests under way carry only harmless entries. */
  ghost predicate TameNet(net: set<Msg>, key: string) {
    forall req | AppendRequest(req) in net :: Tame(req.entries, key)
  }

  ghost predicate TameLogs(c: Cluster, key: string) {
    forall id | id in c.servers :: Tame(c.servers[id].raft.log.entries, key)
  }

  lemma SelfQuiet(n: Node, key: string)
    ensures Quiet(n, n, key)
  {
  }

  lemma SameNode(n: Node, m: Node, key: string)
    requires m.log == n.log && m.sent == n.sent
    ensures Quiet(n, m, key)
  {
  }

  lemma QuietUpdate(c: Cluster, id: Id, s: Server, ms: set<Msg>, key: string)
    requires id in c.servers && Quiet(c.servers[id].raft, s.raft, key)
    ensures QuietAt(c, Send(Update(c, id, s), ms), key) && QuietAt(c, Update(c, id, s), key)
  {
  }

  /** The step keeps logs and requests harmless and gives no result to a call. */
  ghost predicate QuietStep(c: Cluster, d: Cluster, key: string) {
    QuietAt(c, d, key) && (TameLogs(c, key) && TameNet(c.net, key) ==> TameNet(d.net, key))
  }

  lemma StandQuiet(c: Cluster, id: Id, key: string)
    requires id in c.servers && c.servers[id].raft.log.Valid()
    ensures QuietStep(c, Stand(c, id), key)
  {
    hide StartElection, Quiet, QuietAt;
    var s := c.servers[id];
    var n := StartElection(s.raft);
    LeaderQuiet(s.raft, key);
    QuietUpdate(c, id, s.(raft := n), if n.role == Leader then {} else VoteRequests(n, false, n.term, n.term), key);
  }

  lemma CampaignQuiet(c: Cluster, id: Id, key: string)
    requires id in c.servers && c.servers[id].raft.log.Valid()
    ensures QuietStep(c, StepCampaign(c, id), key)
  {
    hide Stand, Quiet, RLog.Valid, QuietAt, TameLogs;
    var n := c.servers[id].raft.(recent := true);
    var s := c.servers[id].(raft := n);
    SameNode(c.servers[id].raft, n, key);
    QuietUpdate(c, id, s, {}, key);
    StandQuiet(Update(c, id, s), id, key);
    QuietTwice(c, Update(c, id, s), Stand(Update(c, id, s), id), key);
    var t := s.(rounds := s.rounds[c.calls := PreRound(n.term, {})]);
    QuietUpdate(c, id, t, {}, key);
    if MayCampaign(n) && ClusterSize(n) != 1 {
      SameQuiet(Update(c, id, t), StepCampaign(c, id), key);
      QuietTwice(c, Update(c, id, t), StepCampaign(c, id), key);
    }
  }

  lemma VoteRequestQuiet(c: Cluster, req: VoteReq, key: string)
    requires req.to in c.servers
    ensures QuietStep(c, StepVoteRequest(c, req), key)
  {
    hide HandleVote, HandlePreVote, Quiet, QuietAt;
    var s := c.servers[req.to];
    VoteQuiet(s.raft, req, key);
    SelfQuiet(s.raft, key);
    var (n, resp) := HandleVote(s.raft, req);
    QuietUpdate(c, req.to, s.(raft := n), {VoteReply(req, resp)}, key);
    SameQuiet(c, Send(c, {VoteReply(req, HandlePreVote(s.raft, req))}), key);
  }

  lemma SameQuiet(c: Cluster, d: Cluster, key: string)
    requires d.servers == c.servers
    ensures QuietAt(c, d, key)
  {
  }

  lemma VoteReplyQuiet(c: Cluster, req: VoteReq, resp: VoteResp, key: string)
    requires req.from in c.servers && c.servers[req.from].raft.log.Valid()
    ensures QuietStep(c, StepVoteReply(c, req, resp), key)
  {
    hide StepPreVoteReply, OnVoteResp, Quiet, QuietAt, RLog.Valid;
    var s := c.servers[req.from];
    VoteRespQuiet(s.raft, req, resp, key);
    QuietUpdate(c, req.from, s.(raft := OnVoteResp(s.raft, req, resp)), {}, key);
    PreVoteReplyQuiet(c, req, resp, key);
  }

  lemma PreVoteReplyQuiet(c: Cluster, req: VoteReq, resp: VoteResp, key: string)
    requires req.from in c.servers && c.servers[req.from].raft.log.Valid()
    ensures QuietStep(c, StepPreVoteReply(c, req, resp), key)
  {
    hide Stand, BecomeFollower, Majority, Quiet, QuietAt, RLog.Valid;
    var s := c.servers[req.from];
    SameQuiet(c, c, key);
    FollowerQuiet(s.raft, resp.term, key);
    QuietUpdate(c, req.from, s.(raft := BecomeFollower(s.raft, resp.term)), {}, key);
    if req.round in s.rounds {
      var round := PreRound(s.raft.term, s.rounds[req.round].grants + {req.to});
      var d := Update(c, req.from, s.(rounds := s.rounds[req.round := round]));
      SelfQuiet(s.raft, key);
      QuietUpdate(c, req.from, s.(rounds := s.rounds[req.round := round]), {}, key);
      StandQuiet(d, req.from, key);
      QuietTwice(c, d, Stand(d, req.from), key);
    }
  }

  lemma QuietTwice(c: Cluster, d: Cluster, e: Cluster, key: string)
    requires QuietAt(c, d, key) && QuietAt(d, e, key)
    ensures QuietAt(c, e, key)
    ensures TameLogs(c, key) ==> TameLogs(d, key)
  {
  }

  lemma AppendRequestQuiet(c: Cluster, req: AppendReq, key: string)
    requires req.to in c.servers && c.servers[req.to].raft.log.Valid() && WellFormed(req) && Tame(req.entries, key)
    ensures QuietStep(c, StepAppendRequest(c, req), key)
  {
    hide HandleAppend, Quiet, QuietAt, RLog.Valid, WellFormed, Tame;
    var s := c.servers[req.to];
    AppendQuiet(s.raft, req, key);
    var (n, resp) := HandleAppend(s.raft, req);
    QuietUpdate(c, req.to, s.(raft := n), {AppendReply(req, resp)}, key);
  }

  lemma AppendReplyQuiet(c: Cluster, req: AppendReq, resp: AppendResp, key: string)
    requires req.from in c.servers && c.servers[req.from].raft.log.Valid()
    ensures QuietStep(c, StepAppendReply(c, req, resp), key)
  {
    hide OnAppendResp, BecomeFollower, RLog.Valid, Tame, Received;
    var n := c.servers[req.from].raft;
    AppendRespQuiet(n, req, resp, key);
    FollowerQuiet(n, resp.term, key);
  }

  lemma SubmitQuiet(c: Cluster, id: Id, command: Command, key: string)
    requires id in c.servers && c.servers[id].raft.log.Valid() && (command.key == key ==> command.op == Incr)
    ensures QuietStep(c, StepSubmit(c, id, command), key)
  {
  }

  /** A request carries entries of its sender's log. */
  lemma ReplicateQuiet(c: Cluster, id: Id, peer: Id, key: string)
    requires id in c.servers && c.servers[id].raft.log.Valid()
    ensures QuietStep(c, StepReplicate(c, id, peer), key)
  {
  }

  /** A step of one node that sends no entries and leaves its log and its calls' channels. */
  lemma StillQuiet(c: Cluster, d: Cluster, id: Id, key: string)
    requires id in c.servers && id in d.servers && d.servers == c.servers[id := d.servers[id]]
    requires d.servers[id].raft.log == c.servers[id].raft.log && d.servers[id].raft.sent == c.servers[id].raft.sent
    requires forall req | AppendRequest(req) in d.net :: AppendRequest(req) in c.net || req.entries == []
    ensures QuietStep(c, d, key)
  {
  }

  lemma ReadConfirmQuiet(c: Cluster, id: Id, call: nat, key: string)
    requires id in c.servers && call in c.servers[id].readCalls
    ensures QuietStep(c, StepReadConfirm(c, id, call), key)
  {
    hide QuietStep;
    StillQuiet(c, StepReadConfirm(c, id, call), id, key);
  }

  lemma ApplyQuiet(c: Cluster, id: Id, key: string)
    requires id in c.servers && c.servers[id].raft.log.Valid()
    ensures QuietStep(c, StepApplyTake(c, id), key)
    ensures c.servers[id].applying.Some? ==> QuietStep(c, StepApplyRun(c, id), key)
  {
    hide QuietStep, ApplyEntry, RLog.Valid, RLog.At;
    StillQuiet(c, StepApplyTake(c, id), id, key);
    if c.servers[id].applying.Some? {
      StillQuiet(c, StepApplyRun(c, id), id, key);
    }
  }

  /** The one step that gives a result: to a call of this node, whose entry it has just applied. */
  ghost predicate Gives(c: Cluster, id: Id) {
    && id in c.servers && c.servers[id].applying.Some? && c.servers[id].applying.value.result.Some?
  }

  lemma FinishTame(c: Cluster, id: Id, key: string)
    requires Gives(c, id) && TameLogs(c, key)
    ensures TameLogs(StepApplyFinish(c, id), key)
  {
  }

  lemma QuietLocally(c: Cluster, id: Id, key: string)
    requires id in c.servers
    ensures QuietStep(c, StepExpire(c, id), key) && QuietStep(c, StepReadCapture(c, id), key)
    ensures forall index :: QuietStep(c, StepAbandon(c, id, index), key)
    ensures forall call :: QuietStep(c, StepReadReturn(c, id, call), key)
  {
    hide QuietStep;
    StillQuiet(c, StepExpire(c, id), id, key);
    StillQuiet(c, StepReadCapture(c, id), id, key);
    forall index
      ensures QuietStep(c, StepAbandon(c, id, index), key)
    {
      StillQuiet(c, StepAbandon(c, id, index), id, key);
    }
    forall call
      ensures QuietStep(c, StepReadReturn(c, id, call), key)
    {
      StillQuiet(c, StepReadReturn(c, id, call), id, key);
    }
  }

  /** The request that the step delivers, or that a crash finds half taken in, carries only harmless entries. */
  ghost predicate TakesTame(a: Action, key: string) {
    && (a.ReceiveAppendRequest? ==> Tame(a.areq.entries, key))
    && (a.Crash? && a.midway.Appending? ==> Tame(a.midway.areq.entries, key))
  }

  lemma PartTame(es: seq<Entry>, k: nat, key: string)
    requires Tame(es, key) && k <= |es|
    ensures Tame(es[..k], key)
  {
  }

  lemma TakenInTame(l: RLog, es: seq<Entry>, taken: nat, cut: bool, key: string)
    requires l.Valid() && PartFits(l, es, taken, cut) && Tame(l.entries, key) && Tame(es, key)
    ensures Tame(TakenIn(l, es, taken, cut).entries, key)
  {
    hide Merge, Tame;
    PartTame(es, taken, key);
    MergeTame(l, es[..taken], key);
    var m := Merge(l, es[..taken]);
    PartTame(m.entries, |m.entries|, key);
    if cut {
      var i := es[taken].index;
      PartTame(m.entries, if i <= m.snapIndex then 0 else if i > m.LastIndex() then |m.entries| else i - m.snapIndex - 1, key);
    }
  }

  lemma CrashQuiet(c: Cluster, id: Id, midway: Midway, key: string)
    requires Enabled(c, Crash(id, midway)) && TakesTame(Crash(id, midway), key)
    ensures QuietStep(c, StepCrash(c, id, midway), key)
  {
    hide Merge, Tame, TakenIn, Conflict, Mismatch, ClusterSize, RLog.Valid, QuietAt, TameLogs, TameNet;
    var s := c.servers[id];
    if midway.Appending? && Tame(s.raft.log.entries, key) {
      TakenInTame(s.raft.log, midway.areq.entries, midway.taken, midway.cut, key);
    }
    QuietUpdate(c, id, Crashed(s.(raft := Halted(s.raft, midway))), {}, key);
  }

  lemma Addressed(c: Cluster, a: Action)
    requires Enabled(c, a) && Networked(a)
    ensures match a
            case ReceiveVoteRequest(req) => req.to in c.servers
            case ReceiveVoteReply(req, _) => req.from in c.servers
            case Replicate(id, _) => id in c.servers
            case ReceiveAppendRequest(req) => req.to in c.servers && AppendRequest(req) in c.net
            case ReceiveAppendReply(req, _) => req.from in c.servers
            case _ => true
  {
  }

  lemma NetworkQuiet(c: Cluster, a: Action, key: string)
    requires Sound(c) && Enabled(c, a) && Networked(a)
    requires a.ReceiveAppendRequest? ==> Tame(a.areq.entries, key)
    ensures QuietStep(c, StepNetwork(c, a), key)
  {
    hide Enabled, QuietStep, Sound, StepVoteRequest, StepVoteReply, StepAppendRequest, StepAppendReply, StepReplicate, Tame, WellFormed, RLog.Valid;
    SoundLogs(c);
    Addressed(c, a);
    match a
    case ReceiveVoteRequest(req) => VoteRequestQuiet(c, req, key);
    case ReceiveVoteReply(req, resp) => VoteReplyQuiet(c, req, resp, key);
    case ReceiveAppendRequest(req) => AppendRequestQuiet(c, req, key);
    case ReceiveAppendReply(req, resp) => AppendReplyQuiet(c, req, resp, key);
    case Replicate(id, peer) => ReplicateQuiet(c, id, peer, key);
  }

  lemma LocalQuiet(c: Cluster, a: Action, key: string)
    requires Sound(c) && Enabled(c, a) && (a.Expire? || a.Abandon? || a.ReadCapture? || a.ReadReturn?)
    ensures QuietStep(c, Step(c, a), key)
  {
    hide QuietStep, Sound, StepExpire, StepReadCapture, StepAbandon, StepReadReturn, MayReturn;
    QuietLocally(c, a.id, key);
  }

  /** No step gives a result to a call but ApplyFinish, and none but it and Submit adds a command from outside. */
  lemma StepQuiet(c: Cluster, a: Action, key: string)
    requires Sound(c) && Enabled(c, a) && !a.ApplyFinish?
    requires a.Submit? && a.command.key == key ==> a.command.op == Incr
    requires TakesTame(a, key)
    ensures QuietStep(c, Step(c, a), key)
  {
    hide QuietStep, Sound, StepNetwork, StepCampaign, StepSubmit, StepReadConfirm, StepApplyTake, StepApplyRun, StepExpire,
         StepReadCapture, StepCrash, StepAbandon, StepReadReturn, StepApplyFinish, MayReturn, Tame, WellFormed, RLog.Valid;
    SoundLogs(c);
    if Networked(a) {
      NetworkQuiet(c, a, key);
    } else if a.Expire? || a.Abandon? || a.ReadCapture? || a.ReadReturn? {
      LocalQuiet(c, a, key);
    } else {
      match a
      case Campaign(id) => CampaignQuiet(c, id, key);
      case Submit(id, command) => SubmitQuiet(c, id, command, key);
      case ReadConfirm(id, call) => ReadConfirmQuiet(c, id, call, key);
      case ApplyTake(id) => ApplyQuiet(c, id, key);
      case ApplyRun(id) => ApplyQuiet(c, id, key);
      case Crash(id, midway) => CrashQuiet(c, id, midway, key);
    }
  }

  // ---- A result was committed by the node that gave it ----

  /** A key that no command of the entries touches. */
  lemma {:induction false} ForeignKey(es: seq<Entry>) returns (key: string)
    ensures forall e | e in es && e.payload.Normal? :: |e.payload.command.key| < |key|
  {
    key := "k";
    if |es| > 0 {
      var e := es[|es| - 1];
      key := ForeignKey(es[..|es| - 1]);
      if e.payload.Normal? {
        key := key + e.payload.command.key + "k";
      }
    }
  }

  /** Whatever the requests and the commands, only ApplyFinish gives results. */
  lemma NoResults(c: Cluster, a: Action, id: Id, call: nat, res: Result)
    requires Sound(c) && Enabled(c, a) && !a.ApplyFinish? && id in Step(c, a).servers
    requires Applied(res) in Received(Step(c, a).servers[id].raft, call)
    ensures id in c.servers && Applied(res) in Received(c.servers[id].raft, call)
  {
    hide Sound, Enabled, Step, Received;
    var key := "k";
    if a.ReceiveAppendRequest? {
      key := ForeignKey(a.areq.entries);
    } else if a.Crash? && a.midway.Appending? {
      key := ForeignKey(a.midway.areq.entries);
    } else if a.Submit? {
      key := ForeignKey([Entry(0, 0, Normal(a.command))]);
      assert Entry(0, 0, Normal(a.command)) in [Entry(0, 0, Normal(a.command))];
    }
    StepQuiet(c, a, key);
  }

  /** ApplyFinish gives a result only to the call whose entry it has applied, which was committed. */
  lemma FinishGives(h: History, x: Context, c: Cluster, id: Id, j: Id, call: nat, res: Result)
    requires Gives(c, id) && j in c.servers && ServerOk(h, x, c.servers[id]) && x.proposals == c.proposals
    requires Applied(res) in Received(StepApplyFinish(c, id).servers[j].raft, call)
    ensures Applied(res) in Received(c.servers[j].raft, call)
            || (j == id && call in c.proposals && c.proposals[call].entry.index <= c.servers[j].raft.commitIndex)
  {
    hide SentOk, WaitersOk, ReadsOk, LeaderOk, CandidateOk, ResultAt, StoreAfter;
  }

  /** Before a result is given at a node, that node has committed the call's entry. */
  lemma {:induction false} CommittedFirst(r: Run, i: nat, id: Id, call: nat, res: Result) returns (j: nat)
    requires IsRun(r) && Present(r, i, id) && Returned(r, i, id, call, res)
    ensures j <= i && Present(r, j, id) && call in r.states[j].proposals
    ensures r.states[j].proposals[call].entry.index <= CommitAt(r, j, id)
    decreases i
  {
    hide IsRun, Follows, ServerOk, C.Inv, C.MemberOk, C.Extends, Sound, Enabled, Step, Received, StepApplyFinish;
    RunLength(r);
    if i == 0 {
      NothingSent(r, id, call);
      assert false;
    } else {
      StepOf(r, i - 1);
      var c, a := r.states[i - 1], r.actions[i - 1];
      if a.ApplyFinish? {
        FinishStep(c, a.id, id);
        var hs, caps := RunSimulated(r);
        NodeFacts(r, hs, caps, i - 1, i - 1, a.id);
        FinishGives(hs[i - 1], ContextOf(c, caps[i - 1]), c, a.id, id, call, res);
      } else {
        NoResults(c, a, id, call, res);
      }
      j := i - 1;
      if Returned(r, i - 1, id, call, res) {
        j := CommittedFirst(r, i - 1, id, call, res);
      }
    }
  }

  lemma FinishStep(c: Cluster, id: Id, j: Id)
    requires Sound(c) && Enabled(c, ApplyFinish(id)) && j in Step(c, ApplyFinish(id)).servers
    ensures Gives(c, id) && j in c.servers && Step(c, ApplyFinish(id)) == StepApplyFinish(c, id)
  {
    hide Sound;
  }

  lemma NothingSent(r: Run, id: Id, call: nat)
    requires IsRun(r) && Present(r, 0, id)
    ensures Received(NodeAt(r, 0, id), call) == []
  {
  }

  // ---- Commands on a counter ----

  /** Every command submitted on `key` is an Incr. */
  ghost predicate OnlyIncr(r: Run, key: string) {
    forall i | 0 <= i < |r.actions| && r.actions[i].Submit? && r.actions[i].command.key == key ::
      r.actions[i].command.op == Incr
  }

  lemma {:induction false} TameRun(r: Run, i: nat, key: string)
    requires IsRun(r) && OnlyIncr(r, key) && i < |r.states|
    ensures TameLogs(r.states[i], key) && TameNet(r.states[i].net, key)
    decreases i
  {
    hide IsRun, Sound, Enabled, Step, Received, Tame, StepApplyFinish;
    RunLength(r);
    if i == 0 {
      TameStart(r, key);
    } else {
      TameRun(r, i - 1, key);
      StepOf(r, i - 1);
      var c, a := r.states[i - 1], r.actions[i - 1];
      if a.ApplyFinish? {
        FinishNet(c, a.id);
        FinishTame(c, a.id, key);
      } else {
        Delivered(c, a);
        StepQuiet(c, a, key);
      }
    }
  }

  lemma TameStart(r: Run, key: string)
    requires IsRun(r)
    ensures TameLogs(r.states[0], key) && TameNet(r.states[0].net, key)
  {
  }

  lemma FinishNet(c: Cluster, id: Id)
    requires Sound(c) && Enabled(c, ApplyFinish(id))
    ensures Gives(c, id) && Step(c, ApplyFinish(id)) == StepApplyFinish(c, id) && StepApplyFinish(c, id).net == c.net
  {
    hide Sound;
  }

  lemma Delivered(c: Cluster, a: Action)
    requires Enabled(c, a)
    ensures a.ReceiveAppendRequest? ==> AppendRequest(a.areq) in c.net
    ensures a.Crash? && a.midway.Appending? ==> AppendRequest(a.midway.areq) in c.net
  {
  }

  // ---- Calls are told apart ----

  lemma ProposalsStay(c: Cluster, a: Action)
    requires Sound(c) && Enabled(c, a)
    ensures forall p | p in c.proposals && p < c.calls :: p in Step(c, a).proposals && Step(c, a).proposals[p] == c.proposals[p]
  {
    hide Sound, HandleVote, HandlePreVote, OnVoteResp, StartElection, HandleAppend, OnAppendResp, BuildAppend, BecomeFollower, Propose,
         Majority, ApplyEntry, RLog.Valid, RLog.At, Restart, MayReturn, VoteRequests;
    if Networked(a) { }
  }

  lemma {:induction false} ProposalsLast(r: Run, i: nat, j: nat, p: nat)
    requires IsRun(r) && i <= j < |r.states| && p in r.states[i].proposals
    ensures p in r.states[j].proposals && r.states[j].proposals[p] == r.states[i].proposals[p]
    decreases j
  {
    hide IsRun, Follows, C.Inv, ServerOk, Sound, Enabled, Step, C.Extends, ProposalOk;
    RunLength(r);
    if i < j {
      ProposalsLast(r, i, j - 1, p);
      StepOf(r, j - 1);
      Numbered(r, j - 1, p);
      ProposalsStay(r.states[j - 1], r.actions[j - 1]);
    }
  }

  lemma Numbered(r: Run, i: nat, p: nat)
    requires IsRun(r) && i < |r.states| && p in r.states[i].proposals
    ensures p < r.states[i].calls
    ensures forall q | q in r.states[i].proposals && q != p ::
              var d, e := r.states[i].proposals[p].entry, r.states[i].proposals[q].entry; d.term != e.term || d.index != e.index
  {
    hide IsRun, C.Inv, ServerOk, C.Extends, ProposalOk, MsgOk, CapturesOk, Later;
    var hs, caps := RunSimulated(r);
    assert Related(hs[i], caps[i], r.states[i]);
  }

  lemma LogContiguous(r: Run, i: nat, id: Id)
    requires IsRun(r) && Present(r, i, id)
    ensures Contiguous(LogAt(r, i, id), 1)
  {
    hide IsRun, Follows, ServerOk, C.Inv, C.MemberOk, C.Extends;
    var hs, caps := RunSimulated(r);
    NodeFacts(r, hs, caps, i, i, id);
    Parts(hs[i], ContextOf(r.states[i], caps[i]), r.states[i].servers[id]);
    LinkedContiguous(hs[i], r.states[i].servers.Keys, NodeAt(r, i, id));
  }

  lemma LinkedContiguous(h: History, ids: set<Id>, n: Node)
    requires Linked(h, ids, n)
    ensures Contiguous(n.log.entries, 1)
  {
  }

  /**
    A Propose call begun by step `s` that returns a result has the result of the
    very entry it appended: its command, at the end of the log it found, in the term
    it found. Some state of its node has that entry committed, and so has every log
    that is committed as far.
   */
  lemma ProposeReturnsOwn(r: Run, s: nat, id: Id, command: Command, i: nat, other: Id, res: Result, j: nat, b: Id) returns (k: nat)
    requires IsRun(r) && s < |r.actions| && r.actions[s] == Submit(id, command)
    requires s < i && Present(r, i, other) && Present(r, j, b) && s < |r.states|
    requires Returned(r, i, other, r.states[s].calls, res)
    ensures Present(r, s, id) && other == id && k <= i && Present(r, k, id)
    ensures var e := Entry(NodeAt(r, s, id).term, |LogAt(r, s, id)| + 1, Normal(command));
            && e.index <= CommitAt(r, k, id)
            && (e.index <= CommitAt(r, j, b) ==>
                  e.index <= |LogAt(r, j, b)| && LogAt(r, j, b)[e.index - 1] == e && res == ResultAt(LogAt(r, j, b), e.index))
  {
    hide IsRun, Received, ResultAt, Sound, Propose, Linked;
    RunLength(r);
    StepOf(r, s);
    LogContiguous(r, s, id);
    SubmitRecorded(r, s, id, command);
    ProposalsLast(r, s + 1, i, r.states[s].calls);
    OwnResult(r, i, other, r.states[s].calls, res, j, b);
    k := CommittedFirst(r, i, other, r.states[s].calls, res);
    ProposalsLast(r, k, i, r.states[s].calls);
  }

  lemma SubmitRecorded(r: Run, s: nat, id: Id, command: Command)
    requires IsRun(r) && |r.states| == |r.actions| + 1 && s < |r.actions| && r.actions[s] == Submit(id, command) && Present(r, s, id)
    ensures r.states[s].calls in r.states[s + 1].proposals
    ensures r.states[s + 1].proposals[r.states[s].calls] ==
            Proposal(id, Entry(NodeAt(r, s, id).term, |LogAt(r, s, id)| + 1, Normal(command)))
  {
    hide IsRun, Sound, Enabled, Step, RLog.Valid;
    StepOf(r, s);
    SoundLogs(r.states[s]);
    SubmitStep(r.states[s], id, command);
    WholeLog(r, s, id);
  }

  lemma SubmitStep(c: Cluster, id: Id, command: Command)
    requires Sound(c) && Enabled(c, Submit(id, command)) && c.servers[id].raft.log.Valid()
    ensures var n, d := c.servers[id].raft, Step(c, Submit(id, command));
            && c.calls in d.proposals
            && d.proposals[c.calls] == Proposal(id, Entry(n.term, n.log.LastIndex() + 1, Normal(command)))
  {
    hide Sound, Propose, RLog.Valid;
  }

  lemma WholeLog(r: Run, i: nat, id: Id)
    requires IsRun(r) && Present(r, i, id)
    ensures NodeAt(r, i, id).log.LastIndex() == |LogAt(r, i, id)|
  {
    hide IsRun, Follows, ServerOk, C.Inv, C.MemberOk, C.Extends;
    var hs, caps := RunSimulated(r);
    NodeFacts(r, hs, caps, i, i, id);
    Parts(hs[i], ContextOf(r.states[i], caps[i]), r.states[i].servers[id]);
    LinkedLength(hs[i], r.states[i].servers.Keys, NodeAt(r, i, id));
  }

  // ---- Counters ----

  /** An Incr of the counter that returned: the call, where it was made, and the number. */
  ghost predicate Counted(r: Run, i: nat, id: Id, call: nat, n: int, key: string) {
    && Present(r, i, id) && Returned(r, i, id, call, Num(n))
    && call in r.states[i].proposals && IsIncr(r.states[i].proposals[call].entry, key)
  }

  /** Logs are no longer than the largest 64-bit integer, so that a counter does not wrap. */
  ghost predicate InRange(r: Run) {
    forall i, id | Present(r, i, id) :: |LogAt(r, i, id)| <= INT64_MAX
  }

  /** The number an Incr returns is how many Incr of the counter were committed up to and including it. */
  lemma CountReturned(r: Run, i: nat, id: Id, call: nat, n: int, key: string) returns (j: nat)
    requires IsRun(r) && OnlyIncr(r, key) && InRange(r) && Counted(r, i, id, call, n, key)
    ensures j <= i && Present(r, j, id)
    ensures var k := r.states[i].proposals[call].entry.index;
            && 0 < k <= CommitAt(r, j, id) && k <= |LogAt(r, j, id)|
            && LogAt(r, j, id)[k - 1] == r.states[i].proposals[call].entry
            && n == CountIncr(LogAt(r, j, id)[..k], key) == CountIncr(LogAt(r, j, id)[..k - 1], key) + 1
  {
    hide IsRun, OnlyIncr, Received, ResultAt, Tame;
    j := CommittedFirst(r, i, id, call, Num(n));
    ProposalsLast(r, j, i, call);
    OwnResult(r, i, id, call, Num(n), j, id);
    TameRun(r, j, key);
    LogContiguous(r, j, id);
    IncrReturns(LogAt(r, j, id), r.states[i].proposals[call].entry.index, key);
  }

  /** No two calls anywhere in the cluster, at any time, receive the same number from a counter. */
  lemma CounterUnique(r: Run, i: nat, a: Id, p: nat, x: int, j: nat, b: Id, q: nat, y: int, key: string)
    requires IsRun(r) && OnlyIncr(r, key) && InRange(r)
    requires Counted(r, i, a, p, x, key) && Counted(r, j, b, q, y, key) && p != q
    ensures x != y
  {
    hide IsRun, OnlyIncr, InRange, Received;
    var i' := CountReturned(r, i, a, p, x, key);
    var j' := CountReturned(r, j, b, q, y, key);
    var m, n := r.states[i].proposals[p].entry.index, r.states[j].proposals[q].entry.index;
    var last := if i <= j then j else i;
    ProposalsLast(r, i, last, p);
    ProposalsLast(r, j, last, q);
    Numbered(r, last, p);
    if m <= n {
      StateMachineSafety(r, i', a, j', b, m);
      CountsDiffer(LogAt(r, i', a), LogAt(r, j', b), m, n, key);
    } else {
      StateMachineSafety(r, i', a, j', b, n);
      CountsDiffer(LogAt(r, j', b), LogAt(r, i', a), n, m, key);
    }
  }
}

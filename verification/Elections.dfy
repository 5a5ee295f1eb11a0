/**
  The cluster with membership changes added to its steps, move by move: what each
  delivery of a message does, and how a node is elected.
 */
module Elections {
  import opened Wrappers
  import opened RaftTypes
  import opened CompactLog
  import opened Protocol
  import opened Cluster
  import opened MembershipRules

  // ---- The cluster with membership changes ----

  datatype Move = Ordinary(action: Action) | ChangeMembers(id: Id, change: Change)

  ghost predicate MayMove(c: Cluster, m: Move) {
    Sound(c) && match m case Ordinary(a) => Enabled(c, a) case ChangeMembers(id, _) => id in c.servers
  }

  ghost function Moved(c: Cluster, m: Move): Cluster
    requires MayMove(c, m)
  {
    match m
    case Ordinary(a) => Step(c, a)
    case ChangeMembers(id, change) =>
      assert c.servers[id].raft.log.Valid();
      match ProposeConfig(c.servers[id].raft, change, c.calls)
      case Accepted(n) => Update(c, id, c.servers[id].(raft := n)).(calls := c.calls + 1)
      case Refused(_) => c
  }

  datatype Trace = Trace(states: seq<Cluster>, moves: seq<Move>)

  ghost predicate IsTrace(r: Trace) {
    && |r.states| == |r.moves| + 1
    && Init(r.states[0])
    && forall i | 0 <= i < |r.moves| :: MoveAt(r, i)
  }

  ghost predicate MoveAt(r: Trace, i: nat)
    requires i < |r.moves| && |r.states| == |r.moves| + 1
  {
    MayMove(r.states[i], r.moves[i]) && r.states[i + 1] == Moved(r.states[i], r.moves[i])
  }

  /** Some run ends in this state. */
  ghost predicate Reached(c: Cluster) {
    exists r: Trace :: IsTrace(r) && |r.states| > 0 && r.states[|r.states| - 1] == c
  }

  lemma ReachedNext(c: Cluster, m: Move)
    requires Reached(c) && MayMove(c, m)
    ensures Reached(Moved(c, m))
  {
    hide MayMove, Moved, Init;
    var r: Trace :| IsTrace(r) && |r.states| > 0 && r.states[|r.states| - 1] == c;
    var q := Trace(r.states + [Moved(c, m)], r.moves + [m]);
    forall i | 0 <= i < |q.moves|
      ensures MoveAt(q, i)
    {
      if i < |r.moves| {
        assert MoveAt(r, i);
      }
    }
    assert IsTrace(q) && q.states[|q.states| - 1] == Moved(c, m);
  }

  // ---- One move ----

  /** A reached state with these servers and this many calls made. */
  ghost predicate At(c: Cluster, ss: map<Id, Server>, calls: nat) {
    Reached(c) && Sound(c) && c.servers == ss && c.calls == calls
  }

  lemma Goes(c: Cluster, ss: map<Id, Server>, k: nat, m: Move, id: Id, s: Server, calls: nat)
    requires At(c, ss, k) && id in ss && MayMove(c, m)
    requires Moved(c, m).servers == ss[id := s] && Moved(c, m).calls == calls && s.raft.log.Valid()
    requires forall req | AppendRequest(req) in Moved(c, m).net && AppendRequest(req) !in c.net :: WellFormed(req)
    ensures At(Moved(c, m), ss[id := s], calls)
  {
    hide Reached, MayMove, Moved, RLog.Valid, WellFormed;
    ReachedNext(c, m);
  }

  lemma LogsValid(c: Cluster, ss: map<Id, Server>, k: nat)
    requires At(c, ss, k)
    ensures forall id | id in ss :: ss[id].raft.log.Valid()
  {
    hide Reached;
  }

  lemma Expires(c: Cluster, ss: map<Id, Server>, k: nat, id: Id) returns (d: Cluster)
    requires At(c, ss, k) && id in ss
    ensures At(d, ss[id := ss[id].(raft := ss[id].raft.(recent := false))], k) && d.net == c.net
  {
    hide Reached, RLog.Valid, WellFormed;
    var m := Ordinary(Expire(id));
    d := Moved(c, m);
    Goes(c, ss, k, m, id, ss[id].(raft := ss[id].raft.(recent := false)), k);
  }

  /** The request of a pre-vote round or an election. */
  function Ask(n: Node, peer: Id, preVote: bool, round: nat, term: nat): VoteReq {
    VoteReq(n.id, peer, preVote, round, term, n.log.LastIndex(), n.log.LastTerm())
  }

  lemma Campaigns(c: Cluster, ss: map<Id, Server>, k: nat, id: Id) returns (d: Cluster)
    requires At(c, ss, k) && id in ss && ss[id].raft.role != Leader && !ss[id].raft.recent
    requires MayCampaign(ss[id].raft) && ClusterSize(ss[id].raft) != 1
    ensures var s := ss[id];
            At(d, ss[id := s.(raft := s.raft.(recent := true), rounds := s.rounds[k := PreRound(s.raft.term, {})])], k + 1)
    ensures c.net <= d.net
    ensures forall p | p in Peers(ss[id].raft) :: VoteRequest(Ask(ss[id].raft, p, true, k, ss[id].raft.term + 1)) in d.net
  {
    hide Reached, RLog.Valid, WellFormed, Stand, ClusterSize, RLog.LastIndex, RLog.LastTerm;
    LogsValid(c, ss, k);
    var s, m := ss[id], Ordinary(Campaign(id));
    d := Moved(c, m);
    var n := s.raft.(recent := true);
    SameSize(s.raft, n);
    assert Peers(n) == Peers(s.raft);
    Goes(c, ss, k, m, id, s.(raft := n, rounds := s.rounds[k := PreRound(n.term, {})]), k + 1);
  }

  lemma SameSize(n: Node, m: Node)
    requires m.cfg == n.cfg && m.id == n.id
    ensures ClusterSize(m) == ClusterSize(n) && Majority(m) == Majority(n)
  {
  }

  /** A vote request is answered, real or pre-vote. */
  lemma Asked(c: Cluster, ss: map<Id, Server>, k: nat, req: VoteReq, n: Node, resp: VoteResp) returns (d: Cluster)
    requires At(c, ss, k) && req.to in ss && VoteRequest(req) in c.net && n.log.Valid()
    requires (n, resp) == if req.preVote then (ss[req.to].raft, HandlePreVote(n, req)) else HandleVote(ss[req.to].raft, req)
    ensures At(d, ss[req.to := ss[req.to].(raft := n)], k) && c.net <= d.net && VoteReply(req, resp) in d.net
  {
    hide Reached, RLog.Valid, WellFormed, HandleVote, HandlePreVote;
    var m := Ordinary(ReceiveVoteRequest(req));
    d := Moved(c, m);
    assert ss[req.to := ss[req.to].(raft := ss[req.to].raft)] == ss;
    Goes(c, ss, k, m, req.to, ss[req.to].(raft := n), k);
  }

  /** A pre-vote is counted, and too few have come. */
  lemma PreCounted(c: Cluster, ss: map<Id, Server>, k: nat, req: VoteReq, resp: VoteResp, round: PreRound) returns (d: Cluster)
    requires At(c, ss, k) && req.from in ss && VoteReply(req, resp) in c.net && req.preVote && req.round in ss[req.from].rounds
    requires var s := ss[req.from];
             && resp.granted && resp.term <= s.raft.term && s.raft.role != Leader && s.raft.term == s.rounds[req.round].term
             && round == PreRound(s.raft.term, s.rounds[req.round].grants + {req.to}) && 1 + |round.grants| < Majority(s.raft)
    ensures At(d, ss[req.from := ss[req.from].(rounds := ss[req.from].rounds[req.round := round])], k) && d.net == c.net
  {
    hide Reached, RLog.Valid, WellFormed, Stand, Majority;
    LogsValid(c, ss, k);
    var m := Ordinary(ReceiveVoteReply(req, resp));
    d := Moved(c, m);
    Goes(c, ss, k, m, req.from, ss[req.from].(rounds := ss[req.from].rounds[req.round := round]), k);
  }

  /** A pre-vote is counted, and the node stands for election. */
  lemma PreWon(c: Cluster, ss: map<Id, Server>, k: nat, req: VoteReq, resp: VoteResp, round: PreRound) returns (d: Cluster)
    requires At(c, ss, k) && req.from in ss && VoteReply(req, resp) in c.net && req.preVote && req.round in ss[req.from].rounds
    requires var s := ss[req.from];
             && resp.granted && resp.term <= s.raft.term && s.raft.role != Leader && s.raft.term == s.rounds[req.round].term
             && round == PreRound(s.raft.term, s.rounds[req.round].grants + {req.to}) && 1 + |round.grants| >= Majority(s.raft)
             && ClusterSize(s.raft) != 1
    ensures var s := ss[req.from];
            At(d, ss[req.from := s.(raft := BecomeCandidate(s.raft), rounds := s.rounds[req.round := round])], k)
    ensures c.net <= d.net
    ensures var n := BecomeCandidate(ss[req.from].raft);
            forall p | p in Peers(n) :: VoteRequest(Ask(n, p, false, n.term, n.term)) in d.net
  {
    hide Reached, RLog.Valid, WellFormed, Majority, ClusterSize, RLog.LastIndex, RLog.LastTerm, BecomeLeader;
    LogsValid(c, ss, k);
    var s, m := ss[req.from], Ordinary(ReceiveVoteReply(req, resp));
    var n := BecomeCandidate(s.raft);
    SameSize(s.raft, n);
    d := Moved(c, m);
    var e := Update(c, req.from, s.(rounds := s.rounds[req.round := round]));
    assert d == Stand(e, req.from);
    Goes(c, ss, k, m, req.from, s.(raft := n, rounds := s.rounds[req.round := round]), k);
  }

  lemma Counted(c: Cluster, ss: map<Id, Server>, k: nat, req: VoteReq, resp: VoteResp, n: Node) returns (d: Cluster)
    requires At(c, ss, k) && req.from in ss && VoteReply(req, resp) in c.net && !req.preVote && ss[req.from].raft.log.Valid()
    requires n == OnVoteResp(ss[req.from].raft, req, resp) && n.log.Valid()
    ensures At(d, ss[req.from := ss[req.from].(raft := n)], k) && d.net == c.net
  {
    hide Reached, RLog.Valid, WellFormed, OnVoteResp;
    var m := Ordinary(ReceiveVoteReply(req, resp));
    d := Moved(c, m);
    Goes(c, ss, k, m, req.from, ss[req.from].(raft := n), k);
  }

  lemma Changes(c: Cluster, ss: map<Id, Server>, k: nat, id: Id, change: Change, n: Node) returns (d: Cluster)
    requires At(c, ss, k) && id in ss && ss[id].raft.log.Valid()
    requires ProposeConfig(ss[id].raft, change, k) == Accepted(n) && n.log.Valid()
    ensures At(d, ss[id := ss[id].(raft := n)], k + 1) && d.net == c.net
  {
    hide Reached, RLog.Valid, WellFormed, ProposeConfig;
    var m := ChangeMembers(id, change);
    d := Moved(c, m);
    Goes(c, ss, k, m, id, ss[id].(raft := n), k + 1);
  }

  lemma Sends(c: Cluster, ss: map<Id, Server>, k: nat, id: Id, peer: Id, req: AppendReq) returns (d: Cluster)
    requires At(c, ss, k) && id in ss && ss[id].raft.role == Leader && peer in Peers(ss[id].raft) && ss[id].raft.log.Valid()
    requires BuildAppend(ss[id].raft, peer) == Some(req) && WellFormed(req)
    ensures At(d, ss, k) && c.net <= d.net && AppendRequest(req) in d.net
  {
    hide Reached, RLog.Valid, WellFormed, BuildAppend;
    var m := Ordinary(Replicate(id, peer));
    d := Moved(c, m);
    assert ss[id := ss[id]] == ss;
    Goes(c, ss, k, m, id, ss[id], k);
  }

  lemma Takes(c: Cluster, ss: map<Id, Server>, k: nat, req: AppendReq, n: Node, resp: AppendResp) returns (d: Cluster)
    requires At(c, ss, k) && req.to in ss && AppendRequest(req) in c.net && ss[req.to].raft.log.Valid() && WellFormed(req)
    requires (n, resp) == HandleAppend(ss[req.to].raft, req) && n.log.Valid()
    ensures At(d, ss[req.to := ss[req.to].(raft := n)], k) && c.net <= d.net && AppendReply(req, resp) in d.net
  {
    hide Reached, RLog.Valid, WellFormed, HandleAppend;
    var m := Ordinary(ReceiveAppendRequest(req));
    d := Moved(c, m);
    Goes(c, ss, k, m, req.to, ss[req.to].(raft := n), k);
  }

  lemma Hears(c: Cluster, ss: map<Id, Server>, k: nat, req: AppendReq, resp: AppendResp, n: Node) returns (d: Cluster)
    requires At(c, ss, k) && req.from in ss && AppendReply(req, resp) in c.net && ss[req.from].raft.log.Valid() && req.call == None
    requires n == OnAppendResp(ss[req.from].raft, req, resp) && n.log.Valid()
    ensures At(d, ss[req.from := ss[req.from].(raft := n)], k) && d.net == c.net
  {
    hide Reached, RLog.Valid, WellFormed, OnAppendResp;
    var m := Ordinary(ReceiveAppendReply(req, resp));
    d := Moved(c, m);
    Goes(c, ss, k, m, req.from, ss[req.from].(raft := n), k);
  }

  // ---- An election ----

  /** Nothing but the servers in `ids` has moved, and no message is gone. */
  ghost predicate OnlyMoves(c: Cluster, d: Cluster, ids: set<Id>, calls: nat) {
    && At(d, d.servers, calls) && d.servers.Keys == c.servers.Keys && c.net <= d.net
    && forall j | j in c.servers && j !in ids :: d.servers[j] == c.servers[j]
  }

  /** Each server is the one its key names. */
  ghost predicate Named(c: Cluster) {
    forall id | id in c.servers :: c.servers[id].raft.id == id
  }

  /** Node `n` will say yes to `m`, whether or not it votes in earnest. */
  predicate Favours(n: Node, m: Node) {
    && n.role != Leader && n.leaderId == None && n.term <= m.term
    && UpToDate(m.log.LastTerm(), m.log.LastIndex(), n.log.LastTerm(), n.log.LastIndex())
  }

  function Voted(n: Node, term: nat, candidate: Id): Node {
    n.(role := Follower, recent := true, term := term, votedFor := Some(candidate))
  }

  lemma SaysYes(n: Node, m: Node, round: nat)
    requires Favours(n, m)
    ensures HandlePreVote(n, Ask(m, n.id, true, round, m.term + 1)) == VoteResp(n.term, true)
    ensures var k := BecomeCandidate(m);
            HandleVote(n, Ask(k, n.id, false, k.term, k.term)) == (Voted(n, k.term, m.id), VoteResp(k.term, true))
  {
    hide RLog.LastIndex, RLog.LastTerm, Flush;
  }

  /** A candidate that won, with its empty entry; nothing is committed yet. */
  function Won(n: Node, votes: set<Id>): Node {
    TakeLead(BecomeCandidate(n).(votes := votes))
  }

  lemma WonUncommitted(n: Node, votes: set<Id>)
    requires n.log.Valid() && Majority(n) > 1
    ensures BecomeLeader(BecomeCandidate(n).(votes := votes)) == Won(n, votes) && Won(n, votes).log.Valid()
  {
    hide CommitUpTo, Majority;
    var m := Won(n, votes);
    SameSize(n, m);
    CommitFound(m, m.log.LastIndex());
    forall idx: nat | idx > 0
      ensures Holders(m, idx) == {}
    {
    }
  }

  /** A pre-vote round that one peer's answer does not decide yet. */
  lemma RoundBegins(c: Cluster, k: nat, id: Id) returns (d: Cluster)
    requires At(c, c.servers, k) && Named(c) && id in c.servers && c.servers[id].raft.role != Leader && !c.servers[id].raft.recent
    requires MayCampaign(c.servers[id].raft) && ClusterSize(c.servers[id].raft) != 1
    ensures OnlyMoves(c, d, {id}, k + 1) && Named(d)
    ensures d.servers[id].raft == c.servers[id].raft.(recent := true)
    ensures k in d.servers[id].rounds && d.servers[id].rounds[k] == PreRound(c.servers[id].raft.term, {})
    ensures var n := d.servers[id].raft; forall p | p in Peers(n) :: VoteRequest(Ask(n, p, true, k, n.term + 1)) in d.net
  {
    hide Reached, Sound, ClusterSize, MayCampaign, RLog.LastIndex, RLog.LastTerm;
    d := Campaigns(c, c.servers, k, id);
    var n, m := c.servers[id].raft, d.servers[id].raft;
    forall p | p in Peers(m)
      ensures VoteRequest(Ask(m, p, true, k, m.term + 1)) in d.net
    {
      assert Ask(m, p, true, k, m.term + 1) == Ask(n, p, true, k, n.term + 1) && p in Peers(n);
    }
  }

  /** A peer that favours the node answers its round. */
  lemma PreVotes(c: Cluster, k: nat, id: Id, n: Node, v: Id, round: nat) returns (d: Cluster)
    requires At(c, c.servers, k) && Named(c) && v in c.servers && n.id == id
    requires Favours(c.servers[v].raft, n) && VoteRequest(Ask(n, v, true, round, n.term + 1)) in c.net
    ensures OnlyMoves(c, d, {}, k) && Named(d)
    ensures VoteReply(Ask(n, v, true, round, n.term + 1), VoteResp(c.servers[v].raft.term, true)) in d.net
  {
    hide Reached, Sound, HandlePreVote, Favours, RLog.LastIndex, RLog.LastTerm;
    var m := c.servers[v].raft;
    SaysYes(m, n, round);
    LogsValid(c, c.servers, k);
    d := Asked(c, c.servers, k, Ask(n, v, true, round, n.term + 1), m, VoteResp(m.term, true));
    assert c.servers[v := c.servers[v].(raft := m)] == c.servers;
  }

  /** It votes in earnest. */
  lemma Votes(c: Cluster, k: nat, id: Id, n: Node, v: Id) returns (d: Cluster)
    requires At(c, c.servers, k) && Named(c) && v in c.servers && n.id == id && Favours(c.servers[v].raft, n)
    requires var m := BecomeCandidate(n); VoteRequest(Ask(m, v, false, m.term, m.term)) in c.net
    ensures OnlyMoves(c, d, {v}, k) && Named(d) && d.servers[v].raft == Voted(c.servers[v].raft, n.term + 1, id)
    ensures var m := BecomeCandidate(n); VoteReply(Ask(m, v, false, m.term, m.term), VoteResp(m.term, true)) in d.net
  {
    hide Reached, Sound, HandleVote, Favours, RLog.LastIndex, RLog.LastTerm;
    var m := BecomeCandidate(n);
    SaysYes(c.servers[v].raft, n, 0);
    LogsValid(c, c.servers, k);
    d := Asked(c, c.servers, k, Ask(m, v, false, m.term, m.term), Voted(c.servers[v].raft, m.term, id), VoteResp(m.term, true));
  }

  lemma MovesOn(c: Cluster, d: Cluster, e: Cluster, i: set<Id>, j: set<Id>, k: nat, l: nat)
    requires OnlyMoves(c, d, i, k) && OnlyMoves(d, e, j, l)
    ensures OnlyMoves(c, e, i + j, l)
  {
    hide At;
  }

  /** An answer to the round is counted; more are needed. */
  lemma RoundGoesOn(c: Cluster, k: nat, n: Node, v: Id, round: nat, t: nat) returns (d: Cluster)
    requires At(c, c.servers, k) && Named(c) && n.id in c.servers && c.servers[n.id].raft == n && n.role != Leader
    requires round in c.servers[n.id].rounds && c.servers[n.id].rounds[round] == PreRound(n.term, {}) && t <= n.term
    requires VoteReply(Ask(n, v, true, round, n.term + 1), VoteResp(t, true)) in c.net && Majority(n) > 2
    ensures OnlyMoves(c, d, {n.id}, k) && Named(d) && d.servers[n.id].raft == n
    ensures round in d.servers[n.id].rounds && d.servers[n.id].rounds[round] == PreRound(n.term, {v})
  {
    hide Reached, Sound, Majority, RLog.LastIndex, RLog.LastTerm;
    d := PreCounted(c, c.servers, k, Ask(n, v, true, round, n.term + 1), VoteResp(t, true), PreRound(n.term, {v}));
  }

  /** The answer that decides the round: the node stands. */
  lemma RoundWon(c: Cluster, k: nat, n: Node, v: Id, round: nat, t: nat, grants: set<Id>) returns (d: Cluster)
    requires At(c, c.servers, k) && Named(c) && n.id in c.servers && c.servers[n.id].raft == n && n.role != Leader
    requires round in c.servers[n.id].rounds && c.servers[n.id].rounds[round] == PreRound(n.term, grants) && t <= n.term
    requires VoteReply(Ask(n, v, true, round, n.term + 1), VoteResp(t, true)) in c.net
    requires 1 + |grants + {v}| >= Majority(n) && ClusterSize(n) != 1
    ensures OnlyMoves(c, d, {n.id}, k) && Named(d) && d.servers[n.id].raft == BecomeCandidate(n)
    ensures var m := BecomeCandidate(n); forall p | p in Peers(m) :: VoteRequest(Ask(m, p, false, m.term, m.term)) in d.net
  {
    hide Reached, Sound, Majority, ClusterSize, RLog.LastIndex, RLog.LastTerm;
    d := PreWon(c, c.servers, k, Ask(n, v, true, round, n.term + 1), VoteResp(t, true), PreRound(n.term, grants + {v}));
  }

  /** A vote is counted; more are needed. */
  lemma VoteCounts(c: Cluster, k: nat, n: Node, v: Id) returns (d: Cluster)
    requires At(c, c.servers, k) && Named(c) && n.id in c.servers && c.servers[n.id].raft == BecomeCandidate(n)
    requires var m := BecomeCandidate(n); VoteReply(Ask(m, v, false, m.term, m.term), VoteResp(m.term, true)) in c.net
    requires Majority(n) > 2
    ensures OnlyMoves(c, d, {n.id}, k) && Named(d) && d.servers[n.id].raft == BecomeCandidate(n).(votes := {v})
  {
    hide Reached, Sound, Majority, RLog.LastIndex, RLog.LastTerm;
    LogsValid(c, c.servers, k);
    var m := BecomeCandidate(n);
    SameSize(n, m.(votes := {v}));
    d := Counted(c, c.servers, k, Ask(m, v, false, m.term, m.term), VoteResp(m.term, true), m.(votes := {v}));
  }

  lemma Decides(n: Node, v: Id, votes: set<Id>)
    requires n.log.Valid() && 1 + |votes + {v}| >= Majority(n) > 1
    ensures var m := BecomeCandidate(n);
            OnVoteResp(m.(votes := votes), Ask(m, v, false, m.term, m.term), VoteResp(m.term, true)) == Won(n, votes + {v})
    ensures Won(n, votes + {v}).log.Valid() && Won(n, votes + {v}).id == n.id
  {
    hide Majority, RLog.LastIndex, RLog.LastTerm, BecomeLeader, RLog.Valid;
    SameSize(n, BecomeCandidate(n).(votes := votes + {v}));
    WonUncommitted(n, votes + {v});
  }

  /** The vote that decides: the node leads. */
  lemma VoteDecides(c: Cluster, k: nat, n: Node, v: Id, votes: set<Id>) returns (d: Cluster)
    requires At(c, c.servers, k) && Named(c) && n.id in c.servers && c.servers[n.id].raft == BecomeCandidate(n).(votes := votes)
    requires var m := BecomeCandidate(n); VoteReply(Ask(m, v, false, m.term, m.term), VoteResp(m.term, true)) in c.net
    requires 1 + |votes + {v}| >= Majority(n) > 1
    ensures OnlyMoves(c, d, {n.id}, k) && Named(d) && d.servers[n.id].raft == Won(n, votes + {v})
  {
    hide Reached, Sound, Majority, RLog.LastIndex, RLog.LastTerm, OnVoteResp, Won, RLog.Valid;
    LogsValid(c, c.servers, k);
    var m := BecomeCandidate(n).(votes := votes);
    Decides(n, v, votes);
    d := Counted(c, c.servers, k, Ask(BecomeCandidate(n), v, false, m.term, m.term), VoteResp(m.term, true), Won(n, votes + {v}));
  }

  /** What a move leaves alone. */
  lemma Still(c: Cluster, d: Cluster, ids: set<Id>, k: nat, j: Id)
    requires OnlyMoves(c, d, ids, k) && j in c.servers
    ensures At(d, d.servers, k) && j in d.servers && (j !in ids ==> d.servers[j] == c.servers[j])
  {
    hide At;
  }

  lemma Sent(c: Cluster, d: Cluster, ids: set<Id>, k: nat, m: Msg)
    requires OnlyMoves(c, d, ids, k) && m in c.net
    ensures m in d.net
  {
    hide At;
  }

  /** Two peers that favour the node let it stand, in a cluster of four. */
  lemma RoundByTwo(c: Cluster, k: nat, id: Id, v: Id, w: Id) returns (d: Cluster)
    requires At(c, c.servers, k) && Named(c) && id in c.servers && v in c.servers && w in c.servers && v != w && v != id && w != id
    requires var n := c.servers[id].raft;
             && n.role != Leader && !n.recent && MayCampaign(n) && ClusterSize(n) == 4 && v in Peers(n) && w in Peers(n)
             && n.id == id && Favours(c.servers[v].raft, n) && Favours(c.servers[w].raft, n)
    ensures OnlyMoves(c, d, {id}, k + 1) && Named(d) && id in d.servers
    ensures var m := BecomeCandidate(c.servers[id].raft);
            && d.servers[id].raft == m
            && forall p | p in Peers(m) :: VoteRequest(Ask(m, p, false, m.term, m.term)) in d.net
  {
    hide *;
    var n := c.servers[id].raft.(recent := true);
    SameFavours(c.servers[v].raft, c.servers[id].raft, n);
    SameFavours(c.servers[w].raft, c.servers[id].raft, n);
    SameSize(c.servers[id].raft, n);
    SameNode(c.servers[id].raft, n);
    FourNodes(n);
    var c1 := RoundBegins(c, k, id);
    Still(c, c1, {id}, k + 1, id);
    Still(c, c1, {id}, k + 1, v);
    Still(c, c1, {id}, k + 1, w);
    var c2 := PreVotes(c1, k + 1, id, n, v, k);
    Still(c1, c2, {}, k + 1, id);
    Still(c1, c2, {}, k + 1, w);
    Sent(c1, c2, {}, k + 1, VoteRequest(Ask(n, w, true, k, n.term + 1)));
    var c3 := PreVotes(c2, k + 1, id, n, w, k);
    Still(c2, c3, {}, k + 1, id);
    Sent(c2, c3, {}, k + 1, VoteReply(Ask(n, v, true, k, n.term + 1), VoteResp(c.servers[v].raft.term, true)));
    FavoursTerm(c.servers[v].raft, n);
    FavoursTerm(c.servers[w].raft, n);
    var c4 := RoundGoesOn(c3, k + 1, n, v, k, c.servers[v].raft.term);
    Still(c3, c4, {id}, k + 1, id);
    Sent(c3, c4, {id}, k + 1, VoteReply(Ask(n, w, true, k, n.term + 1), VoteResp(c.servers[w].raft.term, true)));
    assert |{v} + {w}| == 2;
    d := RoundWon(c4, k + 1, n, w, k, c.servers[w].raft.term, {v});
    MovesOn(c, c1, c2, {id}, {}, k + 1, k + 1);
    MovesOn(c, c2, c3, {id} + {}, {}, k + 1, k + 1);
    MovesOn(c, c3, c4, {id} + {} + {}, {id}, k + 1, k + 1);
    MovesOn(c, c4, d, {id} + {} + {} + {id}, {id}, k + 1, k + 1);
    assert {id} + {} + {} + {id} + {id} == {id};
    Still(c4, d, {id}, k + 1, id);
  }

  lemma SameNode(n: Node, m: Node)
    requires m == n.(recent := true)
    ensures Peers(m) == Peers(n) && BecomeCandidate(m) == BecomeCandidate(n) && m.id == n.id && m.term == n.term && m.role == n.role
  {
  }

  /** And elect it. */
  lemma VotesByTwo(c: Cluster, k: nat, n: Node, v: Id, w: Id) returns (d: Cluster)
    requires At(c, c.servers, k) && Named(c) && n.id in c.servers && v in c.servers && w in c.servers && v != w
    requires v != n.id && w != n.id && v in Peers(n) && w in Peers(n) && Majority(n) == 3
    requires c.servers[n.id].raft == BecomeCandidate(n) && Favours(c.servers[v].raft, n) && Favours(c.servers[w].raft, n)
    requires var m := BecomeCandidate(n);
             VoteRequest(Ask(m, v, false, m.term, m.term)) in c.net && VoteRequest(Ask(m, w, false, m.term, m.term)) in c.net
    ensures OnlyMoves(c, d, {n.id, v, w}, k) && Named(d) && n.id in d.servers && v in d.servers && w in d.servers
    ensures d.servers[n.id].raft == Won(n, {v, w})
    ensures d.servers[v].raft == Voted(c.servers[v].raft, n.term + 1, n.id)
    ensures d.servers[w].raft == Voted(c.servers[w].raft, n.term + 1, n.id)
  {
    hide *;
    var m, id := BecomeCandidate(n), n.id;
    var c1 := Votes(c, k, id, n, v);
    Still(c, c1, {v}, k, id);
    Still(c, c1, {v}, k, v);
    Still(c, c1, {v}, k, w);
    Sent(c, c1, {v}, k, VoteRequest(Ask(m, w, false, m.term, m.term)));
    var c2 := Votes(c1, k, id, n, w);
    Still(c1, c2, {w}, k, id);
    Still(c1, c2, {w}, k, v);
    Still(c1, c2, {w}, k, w);
    Sent(c1, c2, {w}, k, VoteReply(Ask(m, v, false, m.term, m.term), VoteResp(m.term, true)));
    var c3 := VoteCounts(c2, k, n, v);
    Still(c2, c3, {id}, k, id);
    Still(c2, c3, {id}, k, v);
    Still(c2, c3, {id}, k, w);
    Sent(c2, c3, {id}, k, VoteReply(Ask(m, w, false, m.term, m.term), VoteResp(m.term, true)));
    assert |{v} + {w}| == 2;
    d := VoteDecides(c3, k, n, w, {v});
    Still(c3, d, {id}, k, id);
    Still(c3, d, {id}, k, v);
    Still(c3, d, {id}, k, w);
    MovesOn(c, c1, c2, {v}, {w}, k, k);
    MovesOn(c, c2, c3, {v} + {w}, {id}, k, k);
    MovesOn(c, c3, d, {v} + {w} + {id}, {id}, k, k);
    assert {v} + {w} == {v, w} && {v} + {w} + {id} + {id} == {id, v, w};
  }

  /** Node `id` is elected by two peers, in a cluster of four. */
  lemma ElectedByTwo(c: Cluster, k: nat, id: Id, v: Id, w: Id) returns (d: Cluster)
    requires At(c, c.servers, k) && Named(c) && id in c.servers && v in c.servers && w in c.servers && v != w && v != id && w != id
    requires var n := c.servers[id].raft;
             && n.role != Leader && !n.recent && MayCampaign(n) && ClusterSize(n) == 4 && v in Peers(n) && w in Peers(n)
             && n.id == id && Favours(c.servers[v].raft, n) && Favours(c.servers[w].raft, n)
    ensures OnlyMoves(c, d, {id, v, w}, k + 1) && Named(d) && id in d.servers && v in d.servers && w in d.servers
    ensures var n := c.servers[id].raft;
            && d.servers[id].raft == Won(n, {v, w})
            && d.servers[v].raft == Voted(c.servers[v].raft, n.term + 1, id)
            && d.servers[w].raft == Voted(c.servers[w].raft, n.term + 1, id)
    ensures var m := BecomeCandidate(c.servers[id].raft);
            forall p | p in Peers(m) :: VoteRequest(Ask(m, p, false, m.term, m.term)) in d.net
  {
    hide *;
    var n, m := c.servers[id].raft, BecomeCandidate(c.servers[id].raft);
    FourNodes(n);
    SamePeers(n);
    var e := RoundByTwo(c, k, id, v, w);
    Still(c, e, {id}, k + 1, id);
    Still(c, e, {id}, k + 1, v);
    Still(c, e, {id}, k + 1, w);
    d := VotesByTwo(e, k + 1, n, v, w);
    MovesOn(c, e, d, {id}, {id, v, w}, k + 1, k + 1);
    assert {id} + {id, v, w} == {id, v, w};
    forall p | p in Peers(m)
      ensures VoteRequest(Ask(m, p, false, m.term, m.term)) in d.net
    {
      Sent(e, d, {id, v, w}, k + 1, VoteRequest(Ask(m, p, false, m.term, m.term)));
    }
  }

  lemma SamePeers(n: Node)
    ensures Peers(BecomeCandidate(n)) == Peers(n) && BecomeCandidate(n).id == n.id && BecomeCandidate(n).term == n.term + 1
  {
  }

  /** Node `id` is elected by one peer, in a cluster of three. */
  lemma ElectedByOne(c: Cluster, k: nat, id: Id, v: Id) returns (d: Cluster)
    requires At(c, c.servers, k) && Named(c) && id in c.servers && v in c.servers && v != id
    requires var n := c.servers[id].raft;
             && n.role != Leader && !n.recent && MayCampaign(n) && ClusterSize(n) == 3 && v in Peers(n)
             && n.id == id && Favours(c.servers[v].raft, n)
    ensures OnlyMoves(c, d, {id, v}, k + 1) && Named(d) && id in d.servers && v in d.servers
    ensures var n := c.servers[id].raft;
            d.servers[id].raft == Won(n, {v}) && d.servers[v].raft == Voted(c.servers[v].raft, n.term + 1, id)
  {
    hide *;
    var n := c.servers[id].raft.(recent := true);
    var m := BecomeCandidate(n);
    SameFavours(c.servers[v].raft, c.servers[id].raft, n);
    SameSize(c.servers[id].raft, n);
    SameNode(c.servers[id].raft, n);
    SamePeers(n);
    ThreeNodes(n);
    var c1 := RoundBegins(c, k, id);
    Still(c, c1, {id}, k + 1, id);
    Still(c, c1, {id}, k + 1, v);
    var c2 := PreVotes(c1, k + 1, id, n, v, k);
    Still(c1, c2, {}, k + 1, id);
    Still(c1, c2, {}, k + 1, v);
    FavoursTerm(c.servers[v].raft, n);
    assert {} + {v} == {v};
    var c3 := RoundWon(c2, k + 1, n, v, k, c.servers[v].raft.term, {});
    Still(c2, c3, {id}, k + 1, id);
    Still(c2, c3, {id}, k + 1, v);
    var c4 := Votes(c3, k + 1, id, n, v);
    Still(c3, c4, {v}, k + 1, id);
    Still(c3, c4, {v}, k + 1, v);
    SameWon(c.servers[id].raft, n, {v});
    NoVotes(n);
    d := VoteDecides(c4, k + 1, n, v, {});
    Still(c4, d, {id}, k + 1, id);
    Still(c4, d, {id}, k + 1, v);
    MovesOn(c, c1, c2, {id}, {}, k + 1, k + 1);
    MovesOn(c, c2, c3, {id} + {}, {id}, k + 1, k + 1);
    MovesOn(c, c3, c4, {id} + {} + {id}, {v}, k + 1, k + 1);
    MovesOn(c, c4, d, {id} + {} + {id} + {v}, {id}, k + 1, k + 1);
    assert {id} + {} + {id} + {v} + {id} == {id, v};
  }

  lemma NoVotes(n: Node)
    ensures BecomeCandidate(n).(votes := {}) == BecomeCandidate(n)
  {
  }

  lemma SameWon(n: Node, m: Node, votes: set<Id>)
    requires m == n.(recent := true)
    ensures Won(m, votes) == Won(n, votes)
  {
    hide TakeLead;
  }

  lemma ThreeNodes(n: Node)
    requires ClusterSize(n) == 3
    ensures Majority(n) == 2
  {
  }

  lemma SameFavours(v: Node, n: Node, m: Node)
    requires Favours(v, n) && m.term == n.term && m.log == n.log
    ensures Favours(v, m)
  {
  }

  lemma FavoursTerm(v: Node, n: Node)
    requires Favours(v, n)
    ensures v.term <= n.term
  {
  }

  lemma FourNodes(n: Node)
    requires ClusterSize(n) == 4
    ensures Majority(n) == 3
  {
  }
}

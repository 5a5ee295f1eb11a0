/**
  When a vote is given. Safety needs votes to be refused; here is that they are given
  whenever they may be: among any nodes there is one that all others vote for.
 */
module Voting {
  import opened Wrappers
  import opened RaftTypes
  import opened CompactLog
  import opened Protocol
  import opened Snapshots
  import opened Cluster
  import opened Elections

  // ---- The answer to one request ----

  /**
    A vote is given exactly in the voter's term or a later one, to whom it has not voted
    against, and to a last entry of a later term, or of the same term and no earlier
    index. It is then on record, and the timer starts anew.
   */
  lemma VoteGrantedIff(n: Node, req: VoteReq)
    ensures var (m, resp) := HandleVote(n, req);
            && (resp.granted <==>
                  && (req.term > n.term || (req.term == n.term && (n.votedFor == None || n.votedFor == Some(req.from))))
                  && (req.lastTerm > n.log.LastTerm() || (req.lastTerm == n.log.LastTerm() && req.lastIndex >= n.log.LastIndex())))
            && resp.term == m.term == (if req.term > n.term then req.term else n.term)
            && (resp.granted ==> m.votedFor == Some(req.from) && m.recent) && (req.term > n.term ==> m.recent)
            && (!resp.granted ==> m.votedFor == if req.term > n.term then None else n.votedFor)
            && m.log == n.log && (req.term > n.term ==> m.role == Follower) && (req.term <= n.term ==> m.role == n.role)
  {
    hide Flush, RLog.LastIndex, RLog.LastTerm;
    BecomeFollowerFields(n, req.term);
  }

  /** A pre-vote is given exactly for a later term, by a node that does not lead and has no fresh leader, on the same terms. */
  lemma PreVoteGrantedIff(n: Node, req: VoteReq)
    ensures HandlePreVote(n, req).granted <==>
              && req.term > n.term && n.role != Leader && (n.leaderId == None || !n.recent)
              && (req.lastTerm > n.log.LastTerm() || (req.lastTerm == n.log.LastTerm() && req.lastIndex >= n.log.LastIndex()))
    ensures HandlePreVote(n, req).term == n.term
  {
    hide RLog.LastIndex, RLog.LastTerm;
  }

  // ---- Who campaigns ----

  /**
    When its timer fires a node that waits to be taken in, or is no member, does nothing;
    one that is alone leads at once in the next term; and any other asks all its peers for
    the next term, and stays in its own.
   */
  lemma CampaignIs(c: Cluster, id: Id)
    requires Sound(c) && Enabled(c, Campaign(id))
    ensures id in c.servers && id in Step(c, Campaign(id)).servers
    ensures var n, m, d := c.servers[id].raft, Step(c, Campaign(id)).servers[id].raft, Step(c, Campaign(id));
            && m.recent
            && if n.cfg.joining || n.id !in n.cfg.members then
                 d.net == c.net && m == n.(recent := true) && d.servers[id].rounds == c.servers[id].rounds
               else if n.cfg.members.Keys == {n.id} then
                 d.net == c.net && m.role == Leader && m.term == n.term + 1 && m.votedFor == Some(n.id)
               else
                 && m == n.(recent := true) && d.servers[id].rounds == c.servers[id].rounds[c.calls := PreRound(n.term, {})]
                 && d.net == c.net + set p | p in n.cfg.members && p != n.id ::
                      VoteRequest(VoteReq(n.id, p, true, c.calls, n.term + 1, n.log.LastIndex(), n.log.LastTerm()))
  {
    hide Sound, RLog.LastIndex, RLog.LastTerm, RLog.Valid, CommitUpTo;
    var n := c.servers[id].raft;
    assert n.id in n.cfg.members ==> (Peers(n) == {} <==> n.cfg.members.Keys == {n.id});
  }

  // ---- Who can be elected ----

  /** Of two nodes one gets the other's vote in a new term, and both do only with logs that end alike. */
  lemma EitherVotes(n: Node, m: Node, t: nat)
    requires n.term < t && m.term < t
    ensures var a, b := HandleVote(n, Ask(m, n.id, false, t, t)).1.granted, HandleVote(m, Ask(n, m.id, false, t, t)).1.granted;
            (a || b) && (a && b <==> n.log.LastTerm() == m.log.LastTerm() && n.log.LastIndex() == m.log.LastIndex())
  {
    hide HandleVote, RLog.LastIndex, RLog.LastTerm;
    VoteGrantedIff(n, Ask(m, n.id, false, t, t));
    VoteGrantedIff(m, Ask(n, m.id, false, t, t));
  }

  /** No node of `nodes` but itself denies `best` its vote in term `t`. */
  ghost predicate AllVoteFor(nodes: set<Node>, best: Node, t: nat) {
    forall n | n in nodes && n != best :: HandleVote(n, Ask(best, n.id, false, t, t)).1.granted
  }

  ghost predicate AllPreVoteFor(nodes: set<Node>, best: Node, round: nat, t: nat) {
    forall n | n in nodes && n != best :: HandlePreVote(n, Ask(best, n.id, true, round, t)).granted
  }

  /**
    Among any nodes there is one that gets the vote of each other one in any term later
    than all of theirs; and, of those that do not lead and have no fresh leader, also
    the pre-vote.
   */
  lemma {:induction false} SomeoneElectable(nodes: set<Node>, round: nat, t: nat) returns (best: Node)
    requires nodes != {} && forall n | n in nodes :: n.term < t
    ensures best in nodes && AllVoteFor(nodes, best, t)
    ensures (forall n | n in nodes :: n.role != Leader && (n.leaderId == None || !n.recent)) ==> AllPreVoteFor(nodes, best, round, t)
    decreases |nodes|
  {
    hide HandleVote, HandlePreVote, RLog.LastIndex, RLog.LastTerm;
    var n :| n in nodes;
    if nodes == {n} {
      best := n;
    } else {
      var rest := nodes - {n};
      assert nodes == rest + {n};
      best := SomeoneElectable(rest, round, t);
      EitherVotes(n, best, t);
      if !HandleVote(n, Ask(best, n.id, false, t, t)).1.granted {
        forall m | m in rest
          ensures HandleVote(m, Ask(n, m.id, false, t, t)).1.granted
        {
          VotePasses(m, best, n, t);
        }
        best := n;
      }
      forall m | m in nodes && m != best && m.role != Leader && (m.leaderId == None || !m.recent)
        ensures HandlePreVote(m, Ask(best, m.id, true, round, t)).granted
      {
        PreVoteLikeVote(m, best, round, t);
      }
    }
  }

  /** Who votes for the second, whom the third would not vote for, votes for the third. */
  lemma VotePasses(m: Node, best: Node, n: Node, t: nat)
    requires m.term < t && best.term < t && n.term < t
    requires m == best || HandleVote(m, Ask(best, m.id, false, t, t)).1.granted
    requires HandleVote(best, Ask(n, best.id, false, t, t)).1.granted
    ensures HandleVote(m, Ask(n, m.id, false, t, t)).1.granted
  {
    hide HandleVote, RLog.LastIndex, RLog.LastTerm;
    VoteGrantedIff(m, Ask(best, m.id, false, t, t));
    VoteGrantedIff(best, Ask(n, best.id, false, t, t));
    VoteGrantedIff(m, Ask(n, m.id, false, t, t));
  }

  lemma PreVoteLikeVote(m: Node, best: Node, round: nat, t: nat)
    requires m.term < t && m.role != Leader && (m.leaderId == None || !m.recent)
    requires HandleVote(m, Ask(best, m.id, false, t, t)).1.granted
    ensures HandlePreVote(m, Ask(best, m.id, true, round, t)).granted
  {
    hide HandleVote, HandlePreVote, RLog.LastIndex, RLog.LastTerm;
    VoteGrantedIff(m, Ask(best, m.id, false, t, t));
    PreVoteGrantedIff(m, Ask(best, m.id, true, round, t));
  }

  // ---- Staying with a leader ----

  /** Whoever answers a leader's request in its term follows it, freshly: it grants no pre-vote until its timer has run. */
  lemma HeardIsHealthy(n: Node, req: AppendReq)
    requires n.log.Valid() && WellFormed(req) && req.term >= n.term
    ensures var m := HandleAppend(n, req).0;
            m.role == Follower && m.leaderId == Some(req.from) && m.recent && m.term == req.term
    ensures forall ask: VoteReq :: !HandlePreVote(HandleAppend(n, req).0, ask).granted
  {
    hide MergeEntries, Merge, Mismatch, Fits, Flush, RLog.LastIndex, RLog.LastTerm, RLog.Valid, WellFormed;
    var k := Acknowledge(n, req);
    BecomeFollowerFields(n, req.term);
    if !Mismatch(k, req) {
      TakesFits(k, req);
      MergeTouches(k, req.entries);
    }
  }

  lemma TakesFits(n: Node, req: AppendReq)
    requires n.log.Valid() && WellFormed(req) && !Mismatch(n, req)
    ensures Fits(n.log, req.entries)
  {
  }

  /** Whoever answers a leader's snapshot follows it likewise, whether or not it takes the snapshot in. */
  lemma InstallIsHeard(n: Node, req: InstallReq)
    requires n.log.Valid() && req.term >= n.term
    ensures var m := HandleInstall(n, req).0;
            m.role == Follower && m.leaderId == Some(req.from) && m.recent && m.term == req.term == HandleInstall(n, req).1
  {
    hide Flush, RLog.CompactTo, RLog.Valid;
    BecomeFollowerFields(n, req.term);
    var k := Heard(n, req);
    InstallConfigOnly(k, req.snapshot);
  }

  lemma InstallConfigOnly(n: Node, s: Snapshot)
    requires n.log.Valid() && n.role == Follower
    ensures var m := Install(n, s); m.role == Follower && m.leaderId == n.leaderId && m.recent == n.recent && m.term == n.term
  {
    hide RLog.CompactTo, RLog.Valid;
  }

  // ---- Learning a later term ----

  /** Any answer in a later term than the node's makes it a follower in that term that has not voted, its timer anew. */
  lemma LaterTermTaken(c: Cluster, a: Action)
    requires Sound(c) && Enabled(c, a) && (a.ReceiveVoteReply? || a.ReceiveAppendReply?)
    requires var id := if a.ReceiveVoteReply? then a.vreq.from else a.areq.from;
             && id in c.servers
             && (a.ReceiveVoteReply? ==> a.vresp.term > c.servers[id].raft.term)
             && (a.ReceiveVoteReply? && a.vreq.preVote ==> a.vreq.round in c.servers[id].rounds)
             && (a.ReceiveAppendReply? ==> a.aresp.term > c.servers[id].raft.term && a.areq.term <= c.servers[id].raft.term)
    ensures var id := if a.ReceiveVoteReply? then a.vreq.from else a.areq.from;
            var t := if a.ReceiveVoteReply? then a.vresp.term else a.aresp.term;
            && id in Step(c, a).servers
            && var n := Step(c, a).servers[id].raft;
            n.role == Follower && n.term == t && n.votedFor == None && n.recent
  {
    hide Sound, BecomeFollower, RLog.Valid, Stand, Majority, AdvanceCommit, BecomeLeader;
    var id := if a.ReceiveVoteReply? then a.vreq.from else a.areq.from;
    BecomeFollowerFields(c.servers[id].raft, if a.ReceiveVoteReply? then a.vresp.term else a.aresp.term);
  }
}

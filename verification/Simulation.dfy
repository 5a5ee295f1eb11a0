/**
  Every step of the cluster is a composition of the history actions of module
  Consensus: a history can be kept alongside a run so that `Related` holds in
  every state. The cluster itself stores no history.
 */
module Simulation {
  import opened Wrappers
  import opened RaftTypes
  import opened CompactLog
  import opened Protocol
  import opened StoreSpec
  import opened Cluster
  import C = Consensus
  import R = Reigns

  type History = C.History

  /** What the relation needs beside the history: node ids, proposals made, and the history when each read began. */
  datatype Context = Context(ids: set<Id>, proposals: map<nat, Proposal>, captures: map<nat, History>)

  ghost predicate Plain(es: seq<Entry>) {
    forall k | 0 <= k < |es| :: !es[k].payload.Config?
  }

  ghost predicate VotedFor(h: History, v: Id, t: nat, c: Id) {
    C.Ballot(v, t) in h.votes && h.votes[C.Ballot(v, t)].candidate == c
  }

  /** Candidate `c` stood in term `t` with this log. */
  ghost predicate StoodWith(h: History, c: Id, t: nat, log: seq<Entry>) {
    C.Ballot(c, t) in h.votes && h.votes[C.Ballot(c, t)] == C.Vote(c, log)
  }

  /** Node `p` has acknowledged the first `k` entries of the leader of `t`. */
  ghost predicate Holds(h: History, p: Id, t: nat, k: nat) {
    k == 0 || (C.Ballot(p, t) in h.acks && h.acks[C.Ballot(p, t)] >= k)
  }

  /** No leader of a later term than `t`, as of `k`, owes its election to `p`. */
  ghost predicate NotElector(k: History, p: Id, t: nat) {
    forall u | u in k.reigns && u > t :: p !in k.reigns[u].quorum
  }

  // ---- A server and the history ----

  ghost predicate Linked(h: History, ids: set<Id>, n: Node) {
    && h.members.Keys == ids && n.id in ids
    && h.members[n.id] == C.Member(n.term, n.votedFor, n.role, n.log.entries, n.commitIndex)
    && n.log.snapIndex == 0 && n.log.snapTerm == 0 && n.log.Valid() && Plain(n.log.entries)
    && n.cfg.members.Keys == ids && n.cfg.configIndex == 0
  }

  ghost predicate CandidateOk(h: History, ids: set<Id>, n: Node) {
    n.role == Candidate ==>
      n.votes <= ids - {n.id} && forall v | v in n.votes :: VotedFor(h, v, n.term, n.id)
  }

  ghost predicate LeaderOk(h: History, ids: set<Id>, n: Node) {
    n.role == Leader ==>
      && n.nextIndex.Keys == ids - {n.id} && n.matchIndex.Keys == ids - {n.id}
      && (forall p | p in n.matchIndex :: Holds(h, p, n.term, n.matchIndex[p]) && n.matchIndex[p] <= |n.log.entries|)
      && (forall p | p in n.nextIndex :: 1 <= n.nextIndex[p] <= |n.log.entries| + 1)
      && n.term in h.reigns && n.termStart == |h.reigns[n.term].base| + 1
  }

  /** Calls wait only at a leader, each for the very entry it appended in this term, and have received nothing. */
  ghost predicate WaitersOk(proposals: map<nat, Proposal>, n: Node) {
    && (n.role != Leader ==> n.waiters == map[])
    && forall i | i in n.waiters :: Waiting(proposals, n, i)
  }

  ghost predicate Waiting(proposals: map<nat, Proposal>, n: Node, i: nat)
    requires i in n.waiters
  {
    var call := n.waiters[i];
    && call in proposals && proposals[call].node == n.id
    && 0 < i <= |n.log.entries| && proposals[call].entry == n.log.entries[i - 1]
    && proposals[call].entry.term == n.term && proposals[call].entry.index == i
    && Received(n, call) == []
  }

  /** `r` is the result of the committed entry `e`. */
  ghost predicate Answered(h: History, e: Entry, r: Result) {
    exists t | t in h.reigns ::
      0 < e.index <= h.reigns[t].commit <= |h.reigns[t].log| && h.reigns[t].log[e.index - 1] == e
      && r == ResultAt(h.reigns[t].log, e.index)
  }

  ghost predicate SentOk(h: History, proposals: map<nat, Proposal>, n: Node) {
    forall call | call in n.sent ::
      && call in proposals && proposals[call].node == n.id
      && |n.sent[call]| <= 1
      && forall o | o in n.sent[call] && o.Applied? :: Answered(h, proposals[call].entry, o.result)
  }

  /** The apply loop: nothing uncommitted is applied, and the store is the fold of the applied prefix. */
  ghost predicate ApplyOk(proposals: map<nat, Proposal>, s: Server) {
    var n := s.raft;
    && n.lastApplied <= n.commitIndex <= |n.log.entries|
    && match s.applying
       case None => s.store == StoreAfter(n.log.entries[..n.lastApplied])
       case Some(a) =>
         && n.lastApplied < n.commitIndex
         && a.entry == n.log.entries[n.lastApplied]
         && (n.lastApplied + 1) !in n.waiters
         && (match a.result
             case None => s.store == StoreAfter(n.log.entries[..n.lastApplied])
             case Some(r) => s.store == StoreAfter(n.log.entries[..n.lastApplied + 1])
                             && r == ResultAt(n.log.entries, n.lastApplied + 1))
         && (match a.waiter
             case None => true
             case Some(call) => call in proposals && proposals[call] == Proposal(n.id, a.entry) && Received(n, call) == [])
  }

  ghost predicate ReadOk(x: Context, id: Id, call: nat, r: ReadCall) {
    && call in x.captures
    && var k := x.captures[call];
    && id in k.members && k.members[id].role == Leader && k.members[id].term == r.term
    && r.term in k.reigns && k.reigns[r.term].leader == id
    && r.readIndex >= k.reigns[r.term].commit && r.readIndex > |k.reigns[r.term].base|
    && r.acks <= x.ids - {id}
    && forall p | p in r.acks :: NotElector(k, p, r.term)
  }

  ghost predicate ReadsOk(x: Context, s: Server) {
    forall call | call in s.readCalls :: ReadOk(x, s.raft.id, call, s.readCalls[call])
  }

  ghost predicate ServerOk(h: History, x: Context, s: Server) {
    && Linked(h, x.ids, s.raft)
    && CandidateOk(h, x.ids, s.raft)
    && LeaderOk(h, x.ids, s.raft)
    && WaitersOk(x.proposals, s.raft)
    && SentOk(h, x.proposals, s.raft)
    && ApplyOk(x.proposals, s)
    && ReadsOk(x, s)
  }

  // ---- Messages and the history ----

  /**
    Every append request ever sent is a piece of its leader's log, and its commit
    index does not pass the end of that piece.
   */
  ghost predicate AppendOk(h: History, x: Context, req: AppendReq) {
    && req.from in x.ids && req.to in x.ids && req.from != req.to
    && req.term in h.reigns && h.reigns[req.term].leader == req.from
    && WellFormed(req) && Plain(req.entries)
    && var log := h.reigns[req.term].log;
    && req.prevIndex + |req.entries| <= |log|
    && req.entries == log[req.prevIndex..req.prevIndex + |req.entries|]
    && (req.prevIndex > 0 ==> req.prevTerm == log[req.prevIndex - 1].term)
    && req.leaderCommit <= req.prevIndex + |req.entries|
    && req.leaderCommit <= h.reigns[req.term].commit
    && (req.call.Some? ==> CapturedBy(x, req.call.value, req.from, req.term))
  }

  /** The read was begun by `id` as leader of `term`. */
  ghost predicate CapturedBy(x: Context, call: nat, id: Id, term: nat) {
    call in x.captures && id in x.captures[call].members && x.captures[call].members[id].term == term
  }

  ghost predicate MsgOk(h: History, x: Context, m: Msg) {
    match m
    case VoteRequest(req) =>
      && req.from in x.ids && req.to in x.ids && req.from != req.to
      && (!req.preVote ==>
            && VotedFor(h, req.from, req.term, req.from)
            && req.lastIndex == |h.votes[C.Ballot(req.from, req.term)].log|
            && req.lastTerm == LastTermOf(h.votes[C.Ballot(req.from, req.term)].log))
    case VoteReply(req, resp) =>
      && req.from in x.ids && req.to in x.ids && req.from != req.to
      && (!req.preVote && resp.granted ==> VotedFor(h, req.to, req.term, req.from))
    case AppendRequest(req) => AppendOk(h, x, req)
    case AppendReply(req, resp) =>
      && AppendOk(h, x, req)
      && (resp.success ==> Holds(h, req.to, req.term, req.prevIndex + |req.entries|))
      && (req.call.Some? && resp.term <= req.term ==> NotElector(x.captures[req.call.value], req.to, req.term))
  }

  /** Each proposal's entry is in the log of the leader it was made to, and no two proposals share an entry. */
  ghost predicate ProposalsOk(h: History, proposals: map<nat, Proposal>, calls: nat) {
    && (forall p | p in proposals :: p < calls && ProposalOk(h, proposals[p]))
    && (forall p, q | p in proposals && q in proposals ::
          proposals[p].entry.term == proposals[q].entry.term && proposals[p].entry.index == proposals[q].entry.index ==> p == q)
  }

  ghost predicate ProposalOk(h: History, p: Proposal) {
    && p.entry.term in h.reigns
    && 0 < p.entry.index <= |h.reigns[p.entry.term].log|
    && h.reigns[p.entry.term].log[p.entry.index - 1] == p.entry
  }

  ghost predicate CapturesOk(h: History, captures: map<nat, History>, calls: nat) {
    forall k | k in captures :: k < calls && C.Inv(captures[k]) && C.Extends(captures[k], h)
  }

  ghost predicate Related(h: History, captures: map<nat, History>, c: Cluster) {
    var x := Context(c.servers.Keys, c.proposals, captures);
    && C.Inv(h)
    && (forall id | id in c.servers :: c.servers[id].raft.id == id && ServerOk(h, x, c.servers[id]))
    && (forall m | m in c.net :: MsgOk(h, x, m))
    && ProposalsOk(h, c.proposals, c.calls)
    && CapturesOk(h, captures, c.calls)
  }

  // ---- One server moves ----

  /** The history moves on, for node `id` only. */
  ghost predicate Moved(h: History, g: History, id: Id) {
    && C.Inv(g) && C.Extends(h, g)
    && forall j | j in h.members && j != id :: g.members[j] == h.members[j]
  }

  ghost predicate Wider(x: Context, y: Context) {
    && y.ids == x.ids
    && (forall p | p in x.proposals :: p in y.proposals && y.proposals[p] == x.proposals[p])
    && (forall k | k in x.captures :: k in y.captures && y.captures[k] == x.captures[k])
  }

  lemma MovedTwice(h: History, g: History, f: History, id: Id)
    requires Moved(h, g, id) && Moved(g, f, id)
    ensures Moved(h, f, id)
  {
    hide C.Inv;
  }

  lemma AnsweredGrows(h: History, g: History, e: Entry, r: Result)
    requires Answered(h, e, r) && C.Extends(h, g) && C.Inv(g)
    ensures Answered(g, e, r)
  {
    hide C.Inv, ApplyEntry, StoreAfter;
    var t :| t in h.reigns && 0 < e.index <= h.reigns[t].commit <= |h.reigns[t].log| && h.reigns[t].log[e.index - 1] == e
      && r == ResultAt(h.reigns[t].log, e.index);
    C.InvReign(g, t);
    CommitInLog(g, t);
    assert g.reigns[t].log[..e.index - 1] == h.reigns[t].log[..e.index - 1];
    assert r == ResultAt(g.reigns[t].log, e.index);
  }

  lemma CommitInLog(h: History, t: nat)
    requires t in h.reigns && C.ReignOk(h, t)
    ensures h.reigns[t].commit <= |h.reigns[t].log|
  {
  }

  lemma SentGrows(h: History, g: History, x: Context, y: Context, n: Node)
    requires SentOk(h, x.proposals, n) && C.Extends(h, g) && C.Inv(g) && Wider(x, y)
    ensures SentOk(g, y.proposals, n)
  {
    hide C.Inv, Answered, C.Extends;
    forall call, o | call in n.sent && o in n.sent[call] && o.Applied?
      ensures Answered(g, y.proposals[call].entry, o.result)
    {
      AnsweredGrows(h, g, x.proposals[call].entry, o.result);
    }
  }

  /** A server that does nothing stays in order while others move. */
  lemma ServerFrame(h: History, g: History, x: Context, y: Context, s: Server)
    requires ServerOk(h, x, s) && C.Extends(h, g) && C.Inv(g) && Wider(x, y)
    requires g.members[s.raft.id] == h.members[s.raft.id]
    ensures ServerOk(g, y, s)
  {
    hide C.Inv, SentOk, ResultAt, StoreAfter;
    SentGrows(h, g, x, y, s.raft);
  }

  lemma AppendGrows(h: History, g: History, x: Context, y: Context, req: AppendReq)
    requires AppendOk(h, x, req) && C.Extends(h, g) && Wider(x, y)
    ensures AppendOk(g, y, req)
  {
  }

  lemma MsgGrows(h: History, g: History, x: Context, y: Context, m: Msg)
    requires MsgOk(h, x, m) && C.Extends(h, g) && Wider(x, y)
    ensures MsgOk(g, y, m)
  {
    if m.AppendRequest? { AppendGrows(h, g, x, y, m.areq); }
    if m.AppendReply? { AppendGrows(h, g, x, y, m.areq); }
  }

  // ---- Becoming a follower ----

  lemma FlushKeepsSent(h: History, x: Context, n: Node)
    requires SentOk(h, x.proposals, n) && WaitersOk(x.proposals, n)
    ensures SentOk(h, x.proposals, Flush(n))
  {
    hide Answered;
    var m := Flush(n);
    forall i | i in n.waiters
      ensures n.waiters[i] in x.proposals && x.proposals[n.waiters[i]].node == n.id
      ensures m.sent[n.waiters[i]] == [NotLeader]
    {
      assert Waiting(x.proposals, n, i);
    }
  }

  /** A call whose entry is being applied no longer waits, so a step-down does not answer it. */
  lemma FlushKeepsApplying(x: Context, s: Server)
    requires ApplyOk(x.proposals, s) && WaitersOk(x.proposals, s.raft)
    requires s.raft.log.Valid() && s.raft.log.snapIndex == 0
    ensures ApplyOk(x.proposals, s.(raft := Flush(s.raft)))
  {
    hide ResultAt, StoreAfter, Agree;
    var n := s.raft;
    if s.applying.Some? && s.applying.value.waiter.Some? {
      var call := s.applying.value.waiter.value;
      forall i | i in n.waiters
        ensures n.waiters[i] != call
      {
        assert Waiting(x.proposals, n, i);
      }
    }
  }

  lemma FollowerMoves(h: History, x: Context, s: Server, t: nat) returns (g: History)
    requires C.Inv(h) && ServerOk(h, x, s)
    ensures Moved(h, g, s.raft.id) && ServerOk(g, x, s.(raft := BecomeFollower(s.raft, t)))
    ensures g.reigns == h.reigns && g.votes == h.votes && g.acks == h.acks
  {
    hide C.Inv, C.Extends, SentOk, ApplyOk, WaitersOk, ReadsOk, BecomeFollower, Flush;
    var n := s.raft;
    BecomeFollowerFields(n, t);
    if t > n.term {
      g := C.NewTerm(h, n.id, t);
      C.NewTermKeeps(h, n.id, t);
    } else {
      g := C.StepDown(h, n.id);
      C.StepDownKeeps(h, n.id);
    }
    SentGrows(h, g, x, x, n);
    FlushKeepsSent(g, x, n);
    FlushKeepsApplying(x, s);
    var m := BecomeFollower(n, t);
    var f := if n.role == Leader then Flush(n) else n;
    SentSame(g, x.proposals, f, m);
    ApplySame(x.proposals, s.(raft := f), s.(raft := m));
    ReadsSame(x, s, s.(raft := m));
    NoWaiters(x.proposals, n, m);
  }

  // ---- Parts of the relation that look at parts of a server ----

  lemma SentSame(h: History, proposals: map<nat, Proposal>, n: Node, m: Node)
    requires SentOk(h, proposals, n) && m.sent == n.sent && m.id == n.id
    ensures SentOk(h, proposals, m)
  {
  }

  lemma ApplySame(proposals: map<nat, Proposal>, s: Server, t: Server)
    requires ApplyOk(proposals, s) && t.applying == s.applying && t.store == s.store
    requires t.raft.log == s.raft.log && t.raft.lastApplied == s.raft.lastApplied && t.raft.id == s.raft.id
    requires t.raft.commitIndex == s.raft.commitIndex && t.raft.sent == s.raft.sent
    requires t.raft.waiters.Keys <= s.raft.waiters.Keys
    ensures ApplyOk(proposals, t)
  {
  }

  lemma ReadsSame(x: Context, s: Server, t: Server)
    requires ReadsOk(x, s) && t.readCalls == s.readCalls && t.raft.id == s.raft.id
    ensures ReadsOk(x, t)
  {
  }

  lemma NoWaiters(proposals: map<nat, Proposal>, n: Node, m: Node)
    requires WaitersOk(proposals, n) && (m.waiters == map[] || (n.role != Leader && m.waiters == n.waiters))
    ensures WaitersOk(proposals, m)
  {
  }

  // ---- Elections ----

  lemma Parts(h: History, x: Context, s: Server)
    requires ServerOk(h, x, s)
    ensures Linked(h, x.ids, s.raft) && CandidateOk(h, x.ids, s.raft) && LeaderOk(h, x.ids, s.raft)
    ensures WaitersOk(x.proposals, s.raft) && SentOk(h, x.proposals, s.raft) && ApplyOk(x.proposals, s) && ReadsOk(x, s)
  {
  }

  lemma Assemble(h: History, x: Context, s: Server)
    requires Linked(h, x.ids, s.raft) && CandidateOk(h, x.ids, s.raft) && LeaderOk(h, x.ids, s.raft)
    requires WaitersOk(x.proposals, s.raft) && SentOk(h, x.proposals, s.raft) && ApplyOk(x.proposals, s) && ReadsOk(x, s)
    ensures ServerOk(h, x, s)
  {
  }

  lemma MovedOne(h: History, g: History, id: Id)
    requires C.Inv(g) && C.Extends(h, g) && id in g.members && g.members == h.members[id := g.members[id]]
    ensures Moved(h, g, id)
  {
  }

  lemma CandidateMoves(h: History, x: Context, s: Server) returns (g: History)
    requires C.Inv(h) && ServerOk(h, x, s) && s.raft.role != Leader
    ensures var n := s.raft;
            && Moved(h, g, n.id) && ServerOk(g, x, s.(raft := BecomeCandidate(n)))
            && StoodWith(g, n.id, n.term + 1, n.log.entries)
  {
    hide C.Inv, C.Extends, SentOk, ApplyOk, WaitersOk, ReadsOk, ServerOk, Moved, CandidateOk, LeaderOk;
    var n := s.raft;
    Parts(h, x, s);
    g := C.Stand(h, n.id);
    C.StandKeeps(h, n.id);
    SentGrows(h, g, x, x, n);
    var m := BecomeCandidate(n);
    SentSame(g, x.proposals, n, m);
    ApplySame(x.proposals, s, s.(raft := m));
    ReadsSame(x, s, s.(raft := m));
    NoWaiters(x.proposals, n, m);
    FreshCandidate(g, x.ids, m);
    MovedOne(h, g, n.id);
    Assemble(g, x, s.(raft := m));
  }

  lemma FreshCandidate(g: History, ids: set<Id>, m: Node)
    requires m.role == Candidate && m.votes == {}
    ensures CandidateOk(g, ids, m) && LeaderOk(g, ids, m)
  {
  }

  lemma OthersSize(ids: set<Id>, id: Id)
    requires id in ids
    ensures |ids - {id}| + 1 == |ids|
  {
  }

  /** Votes of a majority, its own included, let a candidate lead. */
  lemma LeaderMoves(h: History, x: Context, s: Server) returns (g: History)
    requires C.Inv(h) && ServerOk(h, x, s) && s.raft.role == Candidate
    requires 1 + |s.raft.votes| >= Majority(s.raft)
    ensures Moved(h, g, s.raft.id) && ServerOk(g, x, s.(raft := BecomeLeader(s.raft)))
  {
    hide C.Inv, C.Extends, C.Win, ServerOk, Moved, TakeLead, AdvanceCommit, Majority;
    var f := WinMoves(h, x, s);
    TakesLead(s.raft);
    MovedInv(h, f, s.raft.id);
    g := AdvanceMoves(f, x, s.(raft := TakeLead(s.raft)));
    MovedTwice(h, f, g, s.raft.id);
  }

  lemma MovedInv(h: History, g: History, id: Id)
    requires Moved(h, g, id)
    ensures C.Inv(g) && C.Extends(h, g)
  {
  }

  lemma NotMoved(h: History, id: Id)
    requires C.Inv(h)
    ensures Moved(h, h, id)
  {
  }

  lemma TakesLead(n: Node)
    ensures TakeLead(n).id == n.id && TakeLead(n).role == Leader
  {
  }

  lemma WinMoves(h: History, x: Context, s: Server) returns (g: History)
    requires C.Inv(h) && ServerOk(h, x, s) && s.raft.role == Candidate
    requires 1 + |s.raft.votes| >= Majority(s.raft)
    ensures Moved(h, g, s.raft.id) && ServerOk(g, x, s.(raft := TakeLead(s.raft)))
  {
    hide C.Inv, C.Extends, SentOk, ApplyOk, WaitersOk, ReadsOk, ServerOk, Moved, CandidateOk, LeaderOk, Linked, C.MayWin;
    var n := s.raft;
    Parts(h, x, s);
    var q, e := n.votes + {n.id}, Entry(n.term, n.log.LastIndex() + 1, Noop);
    WinAllowed(h, x.ids, n);
    g := C.Win(h, n.id, q, e);
    R.WinKeeps(h, n.id, q, e);
    SentGrows(h, g, x, x, n);
    var m := TakeLead(n);
    SentSame(g, x.proposals, n, m);
    ApplyAppend(x.proposals, s, s.(raft := m), e) by { CommitInside(x.proposals, s); }
    ReadsSame(x, s, s.(raft := m));
    NoWaiters(x.proposals, n, m);
    WinLinked(h, x.ids, n, q);
    MovedOne(h, g, n.id);
    Assemble(g, x, s.(raft := m));
  }

  lemma CommitInside(proposals: map<nat, Proposal>, s: Server)
    requires ApplyOk(proposals, s)
    ensures s.raft.lastApplied <= s.raft.commitIndex <= |s.raft.log.entries|
  {
  }

  lemma WinAllowed(h: History, ids: set<Id>, n: Node)
    requires C.Inv(h) && Linked(h, ids, n) && CandidateOk(h, ids, n) && n.role == Candidate
    requires 1 + |n.votes| >= Majority(n)
    ensures n.id in h.members && C.MayWin(h, n.id, n.votes + {n.id}, Entry(n.term, n.log.LastIndex() + 1, Noop))
  {
    hide C.Inv, C.CommitOk, C.LogOk, C.TermsBelow;
    C.InvMember(h, n.id);
    OthersSize(ids, n.id);
    var q := n.votes + {n.id};
    assert |q| == |n.votes| + 1;
    forall v | v in q
      ensures C.Ballot(v, n.term) in h.votes && h.votes[C.Ballot(v, n.term)].candidate == n.id
    {
      if v != n.id { assert VotedFor(h, v, n.term, n.id); }
    }
  }

  lemma WinLinked(h: History, ids: set<Id>, n: Node, q: set<Id>)
    requires Linked(h, ids, n)
    ensures var g, m := C.Win(h, n.id, q, Entry(n.term, n.log.LastIndex() + 1, Noop)), TakeLead(n);
            Linked(g, ids, m) && LeaderOk(g, ids, m) && CandidateOk(g, ids, m)
  {
  }

  /** Appending to the log leaves the applied prefix alone. */
  lemma ApplyAppend(proposals: map<nat, Proposal>, s: Server, t: Server, e: Entry)
    requires ApplyOk(proposals, s) && t.applying == s.applying && t.store == s.store
    requires t.raft.log == s.raft.log.Append(e) && t.raft.lastApplied == s.raft.lastApplied && t.raft.id == s.raft.id
    requires s.raft.commitIndex <= t.raft.commitIndex <= |t.raft.log.entries| && t.raft.sent == s.raft.sent
    requires t.raft.waiters.Keys <= s.raft.waiters.Keys + {|s.raft.log.entries| + 1}
    ensures ApplyOk(proposals, t)
  {
    hide ResultAt, StoreAfter;
    var k := s.raft.lastApplied;
    ApplyPrefix(s.raft.log.entries, t.raft.log.entries, k);
    if s.applying.Some? {
      ApplyPrefix(s.raft.log.entries, t.raft.log.entries, k + 1);
      ResultPrefix(s.raft.log.entries, t.raft.log.entries, k + 1);
    }
  }

  lemma ApplyPrefix(a: seq<Entry>, b: seq<Entry>, k: nat)
    requires k <= |a| && a <= b
    ensures a[..k] == b[..k]
  {
  }

  lemma ResultPrefix(a: seq<Entry>, b: seq<Entry>, k: nat)
    requires 0 < k && Agree(a, b, k)
    ensures ResultAt(a, k) == ResultAt(b, k)
  {
    assert a[..k - 1] == a[..k][..k - 1] == b[..k][..k - 1] == b[..k - 1];
    assert a[k - 1] == a[..k][k - 1] == b[..k][k - 1] == b[k - 1];
  }

  // ---- The commit rule ----

  lemma AdvanceMoves(h: History, x: Context, s: Server) returns (g: History)
    requires C.Inv(h) && ServerOk(h, x, s) && s.raft.role == Leader
    ensures Moved(h, g, s.raft.id) && ServerOk(g, x, s.(raft := AdvanceCommit(s.raft)))
  {
    hide C.Inv, C.Extends, SentOk, ApplyOk, WaitersOk, ReadsOk, CommitUpTo, CanCommit, Moved, ServerOk, CandidateOk, LeaderOk, C.MayCommitLeader;
    var n := s.raft;
    Parts(h, x, s);
    var m := AdvanceCommit(n);
    CommitFound(n, n.log.LastIndex());
    if m.commitIndex == n.commitIndex {
      g := h;
      NotMoved(h, n.id);
    } else {
      var q := CommitQuorum(h, x, n, m.commitIndex);
      g := C.CommitLeader(h, n.id, m.commitIndex);
      R.CommitLeaderKeeps(h, n.id, m.commitIndex, q);
      SentGrows(h, g, x, x, n);
      SentSame(g, x.proposals, n, m);
      ApplyMore(x.proposals, s, s.(raft := m));
      ReadsSame(x, s, s.(raft := m));
      WaitersSame(x.proposals, n, m);
      LeaderOkGrows(h, g, x.ids, n, m);
      MovedOne(h, g, n.id);
      Assemble(g, x, s.(raft := m));
    }
  }

  lemma LeaderOkGrows(h: History, g: History, ids: set<Id>, n: Node, m: Node)
    requires LeaderOk(h, ids, n) && C.Extends(h, g) && n.role == Leader
    requires m.role == n.role && m.id == n.id && m.term == n.term && m.log == n.log && m.termStart == n.termStart
    requires m.nextIndex == n.nextIndex && m.matchIndex == n.matchIndex
    ensures LeaderOk(g, ids, m) && CandidateOk(g, ids, m)
  {
  }

  lemma ApplyMore(proposals: map<nat, Proposal>, s: Server, t: Server)
    requires ApplyOk(proposals, s) && s.raft.commitIndex <= t.raft.commitIndex <= |s.raft.log.entries|
    requires t == s.(raft := s.raft.(commitIndex := t.raft.commitIndex))
    ensures ApplyOk(proposals, t)
  {
  }

  lemma WaitersSame(proposals: map<nat, Proposal>, n: Node, m: Node)
    requires WaitersOk(proposals, n) && m.waiters == n.waiters && m.role == n.role && m.id == n.id
    requires m.term == n.term && n.log.entries <= m.log.entries && m.sent == n.sent
    ensures WaitersOk(proposals, m)
  {
  }

  /** The peers the leader counts have acknowledged the entry it commits. */
  lemma CommitQuorum(h: History, x: Context, n: Node, idx: nat) returns (q: set<Id>)
    requires C.Inv(h) && Linked(h, x.ids, n) && LeaderOk(h, x.ids, n) && n.role == Leader
    requires n.commitIndex < idx <= |n.log.entries| && CanCommit(n, idx)
    ensures n.term in h.reigns && C.MayCommitLeader(h, n.id, idx, q)
  {
    hide C.Inv, C.MemberOk, C.ReignOk, C.ReignShape, C.AckedBy, Holders;
    C.InvMember(h, n.id);
    R.LeaderOf(h, n.id);
    C.InvReign(h, n.term);
    LeaderHolds(h, n.term);
    OthersSize(x.ids, n.id);
    q := Holders(n, idx) + {n.id};
    HoldersAcked(h, x.ids, n, idx);
  }

  lemma HoldersAcked(h: History, ids: set<Id>, n: Node, idx: nat)
    requires h.members.Keys == ids && n.id in ids && n.role == Leader && LeaderOk(h, ids, n)
    requires Holds(h, n.id, n.term, idx) && idx > 0 && 1 + |Holders(n, idx)| >= |ids| / 2 + 1
    ensures C.AckedBy(h, Holders(n, idx) + {n.id}, n.term, idx)
  {
  }

  lemma LeaderHolds(h: History, t: nat)
    requires t in h.reigns && C.ReignOk(h, t)
    ensures Holds(h, h.reigns[t].leader, t, |h.reigns[t].log|)
  {
  }

  // ---- Votes ----

  /** The leader hint and the timer are no part of the relation. */
  lemma Touched(h: History, x: Context, s: Server, t: Server)
    requires ServerOk(h, x, s)
    requires t == s.(raft := s.raft.(leaderId := t.raft.leaderId, recent := t.raft.recent), rounds := t.rounds)
    ensures ServerOk(h, x, t)
  {
    hide ServerOk, SentOk, ApplyOk, WaitersOk, ReadsOk, CandidateOk, LeaderOk;
    Parts(h, x, s);
    SentSame(h, x.proposals, s.raft, t.raft);
    ApplySame(x.proposals, s, t);
    ReadsSame(x, s, t);
    WaitersSame(x.proposals, s.raft, t.raft);
    RoleSame(h, x.ids, s.raft, t.raft);
    Assemble(h, x, t);
  }

  lemma RoleSame(h: History, ids: set<Id>, n: Node, m: Node)
    requires LeaderOk(h, ids, n) && CandidateOk(h, ids, n)
    requires m == n.(leaderId := m.leaderId, recent := m.recent, votedFor := m.votedFor)
    ensures LeaderOk(h, ids, m) && CandidateOk(h, ids, m)
  {
  }

  lemma GrantMoves(h: History, x: Context, s: Server, req: VoteReq) returns (g: History)
    requires C.Inv(h) && ServerOk(h, x, s) && MsgOk(h, x, VoteRequest(req)) && !req.preVote
    requires s.raft.term == req.term && CandidateUpToDate(s.raft, req)
    requires s.raft.votedFor == None || s.raft.votedFor == Some(req.from)
    ensures Moved(h, g, s.raft.id)
    ensures ServerOk(g, x, s.(raft := s.raft.(votedFor := Some(req.from), recent := true)))
    ensures VotedFor(g, s.raft.id, req.term, req.from)
  {
    hide C.Inv, C.Extends, SentOk, ApplyOk, WaitersOk, ReadsOk, ServerOk, Moved, CandidateOk, LeaderOk, C.MayGrant;
    var n := s.raft;
    Parts(h, x, s);
    var m := n.(votedFor := Some(req.from), recent := true);
    if n.votedFor == None {
      g := C.Grant(h, n.id, req.from);
      GrantAllowed(h, x, n, req);
      C.GrantKeeps(h, n.id, req.from);
      MovedOne(h, g, n.id);
    } else {
      g := h;
      NotMoved(h, n.id);
      C.InvMember(h, n.id);
    }
    MovedInv(h, g, n.id);
    SentGrows(h, g, x, x, n);
    SentSame(g, x.proposals, n, m);
    ApplySame(x.proposals, s, s.(raft := m));
    ReadsSame(x, s, s.(raft := m));
    WaitersSame(x.proposals, n, m);
    RoleGrows(h, g, x.ids, n, m);
    Assemble(g, x, s.(raft := m));
  }

  lemma RoleGrows(h: History, g: History, ids: set<Id>, n: Node, m: Node)
    requires LeaderOk(h, ids, n) && CandidateOk(h, ids, n) && C.Extends(h, g)
    requires m == n.(votedFor := m.votedFor, recent := m.recent)
    ensures LeaderOk(g, ids, m) && CandidateOk(g, ids, m)
  {
  }

  lemma GrantAllowed(h: History, x: Context, n: Node, req: VoteReq)
    requires Linked(h, x.ids, n) && MsgOk(h, x, VoteRequest(req)) && !req.preVote
    requires n.term == req.term && n.votedFor == None && CandidateUpToDate(n, req)
    ensures n.id in h.members && C.MayGrant(h, n.id, req.from)
  {
  }

  lemma VoteRequestMoves(h: History, x: Context, s: Server, req: VoteReq) returns (g: History)
    requires C.Inv(h) && ServerOk(h, x, s) && MsgOk(h, x, VoteRequest(req)) && !req.preVote
    ensures Moved(h, g, s.raft.id)
    ensures ServerOk(g, x, s.(raft := HandleVote(s.raft, req).0))
    ensures HandleVote(s.raft, req).1.granted ==> VotedFor(g, s.raft.id, req.term, req.from)
  {
    hide C.Inv, C.Extends, ServerOk, Moved, MsgOk, Flush;
    var n := s.raft;
    if req.term > n.term {
      var f := FollowerMoves(h, x, s, req.term);
      BecomeFollowerFields(n, req.term);
      var t := s.(raft := BecomeFollower(n, req.term));
      MovedInv(h, f, n.id);
      MsgGrows(h, f, x, x, VoteRequest(req)) by { SameContext(x); }
      if CandidateUpToDate(t.raft, req) {
        g := GrantMoves(f, x, t, req);
        MovedTwice(h, f, g, n.id);
      } else {
        g := f;
      }
    } else if req.term == n.term && (n.votedFor == None || n.votedFor == Some(req.from)) && CandidateUpToDate(n, req) {
      g := GrantMoves(h, x, s, req);
    } else {
      g := h;
      NotMoved(h, n.id);
    }
  }

  lemma SameContext(x: Context)
    ensures Wider(x, x)
  {
  }

  /** The candidate's caller counts a vote, and leads once it has a majority. */
  lemma VoteReplyMoves(h: History, x: Context, s: Server, req: VoteReq, resp: VoteResp) returns (g: History)
    requires C.Inv(h) && ServerOk(h, x, s) && MsgOk(h, x, VoteReply(req, resp)) && !req.preVote && req.from == s.raft.id
    requires s.raft.log.Valid()
    ensures Moved(h, g, s.raft.id)
    ensures ServerOk(g, x, s.(raft := OnVoteResp(s.raft, req, resp)))
  {
    hide C.Inv, C.Extends, ServerOk, Moved, MsgOk, Flush, BecomeLeader, Majority;
    var n := s.raft;
    if resp.term > n.term {
      g := FollowerMoves(h, x, s, resp.term);
    } else if n.role != Candidate || n.term != req.term || !resp.granted {
      g := h;
      NotMoved(h, n.id);
    } else {
      var m := n.(votes := n.votes + {req.to});
      CountVote(h, x, s, req, resp);
      if 1 + |m.votes| >= Majority(m) {
        g := LeaderMoves(h, x, s.(raft := m));
      } else {
        g := h;
        NotMoved(h, n.id);
      }
    }
  }

  lemma CountVote(h: History, x: Context, s: Server, req: VoteReq, resp: VoteResp)
    requires ServerOk(h, x, s) && MsgOk(h, x, VoteReply(req, resp)) && !req.preVote && req.from == s.raft.id
    requires s.raft.role == Candidate && s.raft.term == req.term && resp.granted
    ensures ServerOk(h, x, s.(raft := s.raft.(votes := s.raft.votes + {req.to})))
  {
    hide ServerOk, SentOk, ApplyOk, WaitersOk, ReadsOk;
    var m := s.raft.(votes := s.raft.votes + {req.to});
    Parts(h, x, s);
    SentSame(h, x.proposals, s.raft, m);
    ApplySame(x.proposals, s, s.(raft := m));
    ReadsSame(x, s, s.(raft := m));
    WaitersSame(x.proposals, s.raft, m);
    Assemble(h, x, s.(raft := m));
  }

  // ---- Replication ----

  /** Without configuration entries the handler's loop changes nothing but the log. */
  lemma {:induction false} PlainMerge(n: Node, es: seq<Entry>)
    requires n.log.Valid() && Fits(n.log, es) && Plain(es) && n.cfg.configIndex == 0
    requires |es| > 0 ==> es[0].index > 0
    ensures MergeEntries(n, es) == n.(log := Merge(n.log, es))
  {
    hide MergeOne, RecomputeConfig, ApplyConfig;
    if |es| > 0 {
      var init, e := es[..|es| - 1], es[|es| - 1];
      PlainMerge(n, init);
      var m := MergeEntries(n, init);
      assert e.index > 0;
      PlainMergeOne(m, e);
    }
  }

  lemma PlainMergeOne(n: Node, e: Entry)
    requires n.log.Valid() && e.index <= n.log.LastIndex() + 1 && !e.payload.Config? && n.cfg.configIndex < e.index
    ensures MergeEntry(n, e) == n.(log := MergeOne(n.log, e))
  {
  }

  /** The consistency check: an equal term at the preceding index means an equal log up to it. */
  lemma PrevAgrees(h: History, x: Context, n: Node, req: AppendReq)
    requires Linked(h, x.ids, n) && AppendOk(h, x, req) && !Mismatch(n, req)
    requires C.LogOk(h.reigns, n.log.entries) && C.LogOk(h.reigns, h.reigns[req.term].log)
    ensures Agree(n.log.entries, h.reigns[req.term].log, req.prevIndex)
    ensures Matches(n.log.entries, h.reigns[req.term].log) && Fits(n.log, req.entries)
  {
  }

  lemma LogIndexed(reigns: map<nat, C.Reign>, log: seq<Entry>)
    requires C.LogOk(reigns, log)
    ensures Contiguous(log, 1)
  {
  }

  /** The handler's loop, as an action of the history. */
  lemma MergeAgrees(h: History, x: Context, n: Node, req: AppendReq)
    requires C.Inv(h) && Linked(h, x.ids, n) && AppendOk(h, x, req)
    requires Fits(n.log, req.entries) && !Mismatch(n, req)
    ensures req.term in h.reigns
    ensures var upto, log := req.prevIndex + |req.entries|, Merge(n.log, req.entries).entries;
            && Agree(log, h.reigns[req.term].log, upto)
            && (log == n.log.entries || CutTo(h, n, req, log))
            && Plain(log)
    ensures MergeEntries(n, req.entries) == n.(log := Merge(n.log, req.entries))
  {
    hide *;
    AppendShape(h, x, req);
    LinkedShape(h, x.ids, n);
    MemberLog(h, n.id);
    ReignLog(h, req.term);
    PrevAgrees(h, x, n, req);
    var leader, upto := h.reigns[req.term].log, req.prevIndex + |req.entries|;
    LogIndexed(h.reigns, leader);
    MergeFollows(n.log, req.entries, leader, req.prevIndex);
    PlainMerge(n, req.entries);
    var log := Merge(n.log, req.entries).entries;
    if log != n.log.entries {
      NotFurther(n.log.entries, log, leader, upto);
      WholeAgrees(log, leader, upto);
      CutHere(h, n, req, log);
    }
    PlainTake(n.log.entries, log, leader, req);
  }

  lemma AppendShape(h: History, x: Context, req: AppendReq)
    requires AppendOk(h, x, req)
    ensures req.term in h.reigns && Plain(req.entries) && WellFormed(req)
    ensures var leader, upto := h.reigns[req.term].log, req.prevIndex + |req.entries|;
            upto <= |leader| && req.entries == leader[req.prevIndex..upto]
    ensures |req.entries| > 0 ==> req.entries[0].index > 0
  {
    hide Plain;
  }

  lemma LinkedShape(h: History, ids: set<Id>, n: Node)
    requires Linked(h, ids, n)
    ensures n.id in h.members && h.members[n.id].log == n.log.entries
    ensures n.log.Valid() && n.log.snapIndex == 0 && Plain(n.log.entries) && n.cfg.configIndex == 0
  {
  }

  lemma WholeAgrees(a: seq<Entry>, b: seq<Entry>, upto: nat)
    requires Agree(a, b, upto)
    ensures Agree(a, b, upto) && (|a| == upto ==> Agree(a, b, |a|))
  {
  }

  lemma CutHere(h: History, n: Node, req: AppendReq, log: seq<Entry>)
    requires req.term in h.reigns && |log| == req.prevIndex + |req.entries|
    requires !Agree(n.log.entries, h.reigns[req.term].log, req.prevIndex + |req.entries| + 1)
    ensures CutTo(h, n, req, log)
  {
  }

  /** A log that lacks what another has up to `upto` agrees no further than that. */
  lemma NotFurther(a: seq<Entry>, b: seq<Entry>, leader: seq<Entry>, upto: nat)
    requires Agree(b, leader, upto)
    ensures |b| == upto && !(b <= a) ==> !Agree(a, leader, upto + 1)
  {
    if |b| == upto && Agree(a, leader, upto + 1) {
      C.AgreeTake(a, leader, upto + 1, upto);
      assert b == b[..upto] == a[..upto];
    }
  }

  /** The log ends with the request's entries, and the node's own was no longer in agreement there. */
  ghost predicate CutTo(h: History, n: Node, req: AppendReq, log: seq<Entry>) {
    var upto := req.prevIndex + |req.entries|;
    |log| == upto && req.term in h.reigns && !Agree(n.log.entries, h.reigns[req.term].log, upto + 1)
  }

  lemma MergeHistory(h: History, x: Context, n: Node, req: AppendReq, log: seq<Entry>) returns (g: History)
    requires C.Inv(h) && Linked(h, x.ids, n) && AppendOk(h, x, req) && req.to == n.id
    requires n.term == req.term && n.role == Follower
    requires Agree(log, h.reigns[req.term].log, req.prevIndex + |req.entries|)
    requires log == n.log.entries || CutTo(h, n, req, log)
    ensures Moved(h, g, n.id) && g == C.Follow(h, n.id, log, req.prevIndex + |req.entries|)
    ensures Agree(n.log.entries, log, n.commitIndex)
  {
    hide C.Inv, C.Extends, Moved, C.MayFollow;
    var upto := req.prevIndex + |req.entries|;
    g := C.Follow(h, n.id, log, upto);
    FollowAllowed(h, x, n, req, log);
    R.FollowKeeps(h, n.id, log, upto);
    R.CommittedWithLeader(h, n.id);
    R.CommittedWithLeader(g, n.id);
    MovedOne(h, g, n.id);
  }

  lemma MergeMoves(h: History, x: Context, s: Server, req: AppendReq) returns (g: History)
    requires C.Inv(h) && ServerOk(h, x, s) && AppendOk(h, x, req) && req.to == s.raft.id
    requires s.raft.term == req.term && s.raft.role == Follower
    requires s.raft.log.Valid() && Fits(s.raft.log, req.entries) && !Mismatch(s.raft, req)
    ensures Moved(h, g, s.raft.id)
    ensures ServerOk(g, x, s.(raft := MergeEntries(s.raft, req.entries)))
    ensures Holds(g, req.to, req.term, req.prevIndex + |req.entries|)
    ensures FollowsTo(g, req.term, MergeEntries(s.raft, req.entries).log.entries, req.prevIndex + |req.entries|)
  {
    hide C.Inv, C.Extends, ServerOk, Moved, CutTo, Merge, MergeEntries, Mismatch, Plain, AppendOk, Linked;
    Parts(h, x, s) by { hide *; }
    MergeAgrees(h, x, s.raft, req);
    MergedOrigin(h, x, s.raft, req);
    g := RewriteMoves(h, x, s, req, Merge(s.raft.log, req.entries));
  }

  lemma MergedOrigin(h: History, x: Context, n: Node, req: AppendReq)
    requires Linked(h, x.ids, n) && Fits(n.log, req.entries)
    ensures Merge(n.log, req.entries).snapIndex == 0 && Merge(n.log, req.entries).snapTerm == 0
  {
  }

  /** A follower's log becomes one that agrees with the leader's up to the end of the request. */
  lemma RewriteMoves(h: History, x: Context, s: Server, req: AppendReq, l: RLog) returns (g: History)
    requires C.Inv(h) && ServerOk(h, x, s) && AppendOk(h, x, req) && req.to == s.raft.id
    requires s.raft.term == req.term && s.raft.role == Follower
    requires l.Valid() && l.snapIndex == 0 && l.snapTerm == 0 && Plain(l.entries)
    requires req.term in h.reigns && Agree(l.entries, h.reigns[req.term].log, req.prevIndex + |req.entries|)
    requires l.entries == s.raft.log.entries || CutTo(h, s.raft, req, l.entries)
    ensures Moved(h, g, s.raft.id)
    ensures ServerOk(g, x, s.(raft := s.raft.(log := l)))
    ensures Holds(g, req.to, req.term, req.prevIndex + |req.entries|)
    ensures FollowsTo(g, req.term, l.entries, req.prevIndex + |req.entries|)
  {
    hide C.Inv, C.Extends, SentOk, ApplyOk, WaitersOk, ReadsOk, ServerOk, Moved, CandidateOk, LeaderOk, Plain, AppendOk, Linked, RLog.Valid, CutTo;
    var n := s.raft;
    Parts(h, x, s);
    var m := n.(log := l);
    g := MergeHistory(h, x, n, req, l.entries);
    MovedInv(h, g, n.id);
    MergeLinked(h, x.ids, n, m, req);
    SentGrows(h, g, x, x, n);
    SentSame(g, x.proposals, n, m);
    ApplyRewrite(x.proposals, s, s.(raft := m));
    ReadsSame(x, s, s.(raft := m));
    NoWaiters(x.proposals, n, m);
    JustFollows(g, x.ids, m);
    Assemble(g, x, s.(raft := m));
  }

  lemma MergeLinked(h: History, ids: set<Id>, n: Node, m: Node, req: AppendReq)
    requires Linked(h, ids, n) && req.to == n.id && n.term == req.term && req.term in h.reigns
    requires m == n.(log := m.log) && m.log.Valid() && m.log.snapIndex == 0 && m.log.snapTerm == 0 && Plain(m.log.entries)
    requires Agree(m.log.entries, h.reigns[req.term].log, req.prevIndex + |req.entries|)
    ensures var upto := req.prevIndex + |req.entries|;
            var g := C.Follow(h, n.id, m.log.entries, upto);
            Linked(g, ids, m) && Holds(g, req.to, req.term, upto) && FollowsTo(g, req.term, m.log.entries, upto)
  {
  }

  lemma MemberLog(h: History, n: Id)
    requires C.Inv(h) && n in h.members
    ensures C.LogOk(h.reigns, h.members[n].log)
  {
  }

  lemma ReignLog(h: History, t: nat)
    requires C.Inv(h) && t in h.reigns
    ensures C.LogOk(h.reigns, h.reigns[t].log)
  {
  }

  lemma FollowAllowed(h: History, x: Context, n: Node, req: AppendReq, log: seq<Entry>)
    requires Linked(h, x.ids, n) && AppendOk(h, x, req) && req.to == n.id && n.term == req.term && n.role == Follower
    requires Agree(log, h.reigns[req.term].log, req.prevIndex + |req.entries|)
    requires log == n.log.entries || CutTo(h, n, req, log)
    ensures C.MayFollow(h, n.id, log, req.prevIndex + |req.entries|)
  {
  }

  ghost predicate FollowsTo(h: History, t: nat, log: seq<Entry>, upto: nat) {
    t in h.reigns && Agree(log, h.reigns[t].log, upto)
  }

  lemma JustFollows(g: History, ids: set<Id>, m: Node)
    requires m.role == Follower
    ensures CandidateOk(g, ids, m) && LeaderOk(g, ids, m)
  {
  }

  lemma PlainTake(a: seq<Entry>, b: seq<Entry>, leader: seq<Entry>, req: AppendReq)
    requires Plain(a) && Plain(req.entries) && Agree(a, leader, req.prevIndex)
    requires req.prevIndex + |req.entries| <= |leader|
    requires req.entries == leader[req.prevIndex..req.prevIndex + |req.entries|]
    requires b == a || (Agree(b, leader, |b|) && |b| == req.prevIndex + |req.entries|)
    ensures Plain(b)
  {
    if b != a {
      forall k | 0 <= k < |b|
        ensures !b[k].payload.Config?
      {
        assert b[k] == leader[k];
        if k < req.prevIndex {
          assert a[k] == leader[k];
        } else {
          assert req.entries[k - req.prevIndex] == leader[k];
        }
      }
    }
  }

  /** Rewriting the log beyond the commit index leaves the applied prefix alone. */
  lemma ApplyRewrite(proposals: map<nat, Proposal>, s: Server, t: Server)
    requires ApplyOk(proposals, s) && t == s.(raft := s.raft.(log := t.raft.log))
    requires Agree(s.raft.log.entries, t.raft.log.entries, s.raft.commitIndex)
    ensures ApplyOk(proposals, t)
  {
    hide ResultAt, StoreAfter;
    var k, a, b := s.raft.lastApplied, s.raft.log.entries, t.raft.log.entries;
    C.AgreeTake(a, b, s.raft.commitIndex, k);
    if s.applying.Some? {
      C.AgreeTake(a, b, s.raft.commitIndex, k + 1);
      assert a[k] == a[..k + 1][k] == b[..k + 1][k] == b[k];
      ResultPrefix(a, b, k + 1);
    }
  }

  lemma LearnMoves(h: History, x: Context, s: Server, req: AppendReq) returns (g: History)
    requires C.Inv(h) && ServerOk(h, x, s) && AppendOk(h, x, req)
    requires s.raft.term == req.term && s.raft.role == Follower
    requires FollowsTo(h, req.term, s.raft.log.entries, req.prevIndex + |req.entries|)
    ensures Moved(h, g, s.raft.id) && ServerOk(g, x, s.(raft := LearnCommit(s.raft, req.leaderCommit)))
    ensures g.acks == h.acks && LearnCommit(s.raft, req.leaderCommit).id == s.raft.id
  {
    hide C.Inv, C.Extends, SentOk, ApplyOk, WaitersOk, ReadsOk, ServerOk, Moved, CandidateOk, LeaderOk;
    var n, k := s.raft, req.leaderCommit;
    if k <= n.commitIndex {
      g := h;
      NotMoved(h, n.id);
    } else {
      Parts(h, x, s);
      var upto := req.prevIndex + |req.entries|;
      C.AgreeTake(n.log.entries, h.reigns[req.term].log, upto, k);
      var m := n.(commitIndex := k);
      LearnsExactly(n, k);
      g := C.CommitFollower(h, n.id, k);
      R.CommitFollowerKeeps(h, n.id, k);
      MovedOne(h, g, n.id);
      SentGrows(h, g, x, x, n);
      SentSame(g, x.proposals, n, m);
      ApplyMore(x.proposals, s, s.(raft := m));
      ReadsSame(x, s, s.(raft := m));
      NoWaiters(x.proposals, n, m);
      JustFollows(g, x.ids, m);
      Assemble(g, x, s.(raft := m));
    }
  }

  /** The clamp to the log's end never bites: the request's entries reach the leader's commit index. */
  lemma LearnsExactly(n: Node, k: nat)
    requires n.log.Valid() && n.log.snapIndex == 0 && n.commitIndex < k <= |n.log.entries|
    ensures LearnCommit(n, k) == n.(commitIndex := k)
  {
  }

  lemma AppendRequestMoves(h: History, x: Context, s: Server, req: AppendReq) returns (g: History)
    requires C.Inv(h) && ServerOk(h, x, s) && AppendOk(h, x, req) && req.to == s.raft.id
    requires s.raft.log.Valid() && WellFormed(req)
    ensures Moved(h, g, s.raft.id)
    ensures ServerOk(g, x, s.(raft := HandleAppend(s.raft, req).0)) && HandleAppend(s.raft, req).0.id == s.raft.id
    ensures HandleAppend(s.raft, req).1.success ==> Holds(g, req.to, req.term, req.prevIndex + |req.entries|)
  {
    hide C.Inv, C.Extends, ServerOk, Moved, AppendOk, MergeEntries, LearnCommit, FollowsTo, Mismatch, Acknowledge;
    var n := s.raft;
    if req.term < n.term {
      g := h;
      NotMoved(h, n.id);
    } else {
      var m := Acknowledge(n, req);
      var t := s.(raft := m);
      var f := AcknowledgeMoves(h, x, s, req);
      g := f;
      if !Mismatch(m, req) {
        MovedInv(h, f, n.id);
        AppendGrows(h, f, x, x, req) by { SameContext(x); }
        FitsAfter(m, req);
        MergedFields(f, x, t, req);
        var e := MergeMoves(f, x, t, req);
        MovedInv(f, e, n.id);
        AppendGrows(f, e, x, x, req) by { SameContext(x); }
        g := LearnMoves(e, x, s.(raft := MergeEntries(m, req.entries)), req);
        MovedTwice(h, f, e, n.id);
        MovedTwice(h, e, g, n.id);
      }
    }
  }

  lemma FitsAfter(n: Node, req: AppendReq)
    requires n.log.Valid() && WellFormed(req) && !Mismatch(n, req)
    ensures Fits(n.log, req.entries)
  {
  }

  lemma MergedFields(h: History, x: Context, s: Server, req: AppendReq)
    requires ServerOk(h, x, s) && AppendOk(h, x, req) && Fits(s.raft.log, req.entries)
    ensures var m := MergeEntries(s.raft, req.entries);
            m.term == s.raft.term && m.role == s.raft.role && m.id == s.raft.id
  {
    hide Merge, MergeEntries, SentOk, ApplyOk, WaitersOk, ReadsOk;
    PlainMerge(s.raft, req.entries);
  }

  lemma AcknowledgeMoves(h: History, x: Context, s: Server, req: AppendReq) returns (g: History)
    requires C.Inv(h) && ServerOk(h, x, s) && req.term >= s.raft.term
    ensures Moved(h, g, s.raft.id) && ServerOk(g, x, s.(raft := Acknowledge(s.raft, req)))
    ensures var m := Acknowledge(s.raft, req);
            m.role == Follower && m.term == req.term && m.id == s.raft.id && m.log == s.raft.log
  {
    hide C.Inv, ServerOk, Moved, Flush;
    var n := s.raft;
    if req.term > n.term || n.role != Follower {
      g := FollowerMoves(h, x, s, req.term);
      BecomeFollowerFields(n, req.term);
      Touched(g, x, s.(raft := BecomeFollower(n, req.term)), s.(raft := Acknowledge(n, req)));
    } else {
      g := h;
      NotMoved(h, n.id);
      Touched(h, x, s, s.(raft := Acknowledge(n, req)));
    }
  }

  // ---- Replies, proposals, restarts ----

  /** Whatever it does to its index maps within their bounds, a leader stays in order. */
  lemma IndexMoves(h: History, x: Context, s: Server, m: Node)
    requires ServerOk(h, x, s) && s.raft.role == Leader
    requires m == s.raft.(nextIndex := m.nextIndex, matchIndex := m.matchIndex)
    requires LeaderOk(h, x.ids, m)
    ensures ServerOk(h, x, s.(raft := m))
  {
    hide ServerOk, SentOk, ApplyOk, WaitersOk, ReadsOk, LeaderOk;
    Parts(h, x, s);
    SentSame(h, x.proposals, s.raft, m);
    ApplySame(x.proposals, s, s.(raft := m));
    ReadsSame(x, s, s.(raft := m));
    WaitersSame(x.proposals, s.raft, m);
    Assemble(h, x, s.(raft := m));
  }

  lemma ReplyIndexes(h: History, x: Context, n: Node, req: AppendReq, resp: AppendResp)
    requires Linked(h, x.ids, n) && LeaderOk(h, x.ids, n) && n.role == Leader && n.term == req.term && req.from == n.id
    requires MsgOk(h, x, AppendReply(req, resp)) && C.MemberOk(h, n.id)
    ensures var reached := req.prevIndex + |req.entries|;
            var held := Lookup(n.matchIndex, req.to);
            resp.success ==>
              LeaderOk(h, x.ids, n.(
                matchIndex := if reached > held then n.matchIndex[req.to := reached] else n.matchIndex,
                nextIndex := n.nextIndex[req.to := (if reached > held then reached else held) + 1]))
    ensures LeaderOk(h, x.ids, n.(nextIndex := n.nextIndex[req.to := BackOff(Lookup(n.nextIndex, req.to), resp.matchIndex)]))
  {
    hide Plain, C.LogOk, C.TermsBelow, C.CommitOk, WellFormed, NotElector;
    assert req.to in n.matchIndex && req.to in n.nextIndex;
    assert h.reigns[n.term].log == n.log.entries;
  }

  lemma AppendReplyMoves(h: History, x: Context, s: Server, req: AppendReq, resp: AppendResp) returns (g: History)
    requires C.Inv(h) && ServerOk(h, x, s) && MsgOk(h, x, AppendReply(req, resp)) && req.from == s.raft.id
    requires s.raft.log.Valid()
    ensures Moved(h, g, s.raft.id) && ServerOk(g, x, s.(raft := OnAppendResp(s.raft, req, resp)))
  {
    hide C.Inv, C.Extends, ServerOk, Moved, MsgOk, BecomeFollower, AdvanceCommit, BackOff, Lookup, LeaderOk,
         Linked, CandidateOk, WaitersOk, SentOk, ApplyOk, ReadsOk, RLog.Valid;
    var n := s.raft;
    if resp.term > n.term {
      g := FollowerMoves(h, x, s, resp.term);
    } else if n.role != Leader || n.term != req.term {
      g := h;
      NotMoved(h, n.id);
    } else {
      Parts(h, x, s);
      InLedger(h, x, n);
      ReplyIndexes(h, x, n, req, resp);
      var reached, held := req.prevIndex + |req.entries|, Lookup(n.matchIndex, req.to);
      if resp.success {
        var m := n.(matchIndex := if reached > held then n.matchIndex[req.to := reached] else n.matchIndex,
                    nextIndex := n.nextIndex[req.to := (if reached > held then reached else held) + 1]);
        IndexMoves(h, x, s, m);
        g := AdvanceMoves(h, x, s.(raft := m));
      } else {
        var m := n.(nextIndex := n.nextIndex[req.to := BackOff(Lookup(n.nextIndex, req.to), resp.matchIndex)]);
        IndexMoves(h, x, s, m);
        g := h;
        NotMoved(h, n.id);
      }
    }
  }

  lemma InLedger(h: History, x: Context, n: Node)
    requires C.Inv(h) && Linked(h, x.ids, n)
    ensures C.MemberOk(h, n.id)
  {
  }

  /** A proposal: `x` already knows the call and its entry. */
  lemma ProposeMoves(h: History, x: Context, s: Server, payload: Payload, call: nat) returns (g: History)
    requires C.Inv(h) && ServerOk(h, x, s) && s.raft.role == Leader && !payload.Config? && s.raft.log.Valid()
    requires call in x.proposals && call !in s.raft.sent
    requires x.proposals[call] == Proposal(s.raft.id, Entry(s.raft.term, s.raft.log.LastIndex() + 1, payload))
    ensures Moved(h, g, s.raft.id) && ServerOk(g, x, s.(raft := Propose(s.raft, payload, call)))
    ensures ProposalOk(g, x.proposals[call])
  {
    hide C.Inv, C.Extends, ServerOk, Moved, AdvanceCommit, ProposalOk;
    var e := Entry(s.raft.term, s.raft.log.LastIndex() + 1, payload);
    var m := s.raft.(log := s.raft.log.Append(e), waiters := s.raft.waiters[e.index := call]);
    var f := SubmitMoves(h, x, s, e, call);
    MovedInv(h, f, s.raft.id);
    g := AdvanceMoves(f, x, s.(raft := m));
    MovedTwice(h, f, g, s.raft.id);
    MovedInv(f, g, s.raft.id);
    ProposalGrows(f, g, x.proposals[call]);
  }

  lemma ProposalGrows(h: History, g: History, p: Proposal)
    requires ProposalOk(h, p) && C.Extends(h, g)
    ensures ProposalOk(g, p)
  {
  }

  lemma SubmitMoves(h: History, x: Context, s: Server, e: Entry, call: nat) returns (g: History)
    requires C.Inv(h) && ServerOk(h, x, s) && s.raft.role == Leader && !e.payload.Config?
    requires e.term == s.raft.term && e.index == s.raft.log.LastIndex() + 1
    requires call in x.proposals && call !in s.raft.sent && x.proposals[call] == Proposal(s.raft.id, e)
    ensures var m := s.raft.(log := s.raft.log.Append(e), waiters := s.raft.waiters[e.index := call]);
            Moved(h, g, s.raft.id) && ServerOk(g, x, s.(raft := m)) && ProposalOk(g, Proposal(s.raft.id, e))
  {
    hide C.Inv, C.Extends, SentOk, ApplyOk, WaitersOk, ReadsOk, ServerOk, Moved, CandidateOk, LeaderOk, Linked, C.MayLead, C.MemberOk, ProposalOk;
    var n := s.raft;
    Parts(h, x, s);
    InLedger(h, x, n);
    LeadAllowed(h, x.ids, n, e);
    var m := n.(log := n.log.Append(e), waiters := n.waiters[e.index := call]);
    g := C.Lead(h, n.id, e);
    R.LeadKeeps(h, n.id, e);
    MovedOne(h, g, n.id);
    SentGrows(h, g, x, x, n);
    SentSame(g, x.proposals, n, m);
    ApplyAppend(x.proposals, s, s.(raft := m), e) by { CommitInside(x.proposals, s); LinkedLength(h, x.ids, n); }
    ReadsSame(x, s, s.(raft := m));
    WaitersAdd(x.proposals, n, m, e, call) by { LinkedLength(h, x.ids, n); }
    LeadLinked(h, x.ids, n, m, e);
    Assemble(g, x, s.(raft := m));
  }

  lemma LinkedLength(h: History, ids: set<Id>, n: Node)
    requires Linked(h, ids, n)
    ensures n.log.LastIndex() == |n.log.entries|
  {
  }

  lemma LeadAllowed(h: History, ids: set<Id>, n: Node, e: Entry)
    requires Linked(h, ids, n) && n.role == Leader && C.MemberOk(h, n.id)
    requires e.term == n.term && e.index == n.log.LastIndex() + 1
    ensures n.id in h.members && h.members[n.id].term in h.reigns && C.MayLead(h, n.id, e)
  {
  }

  lemma WaitersAdd(proposals: map<nat, Proposal>, n: Node, m: Node, e: Entry, call: nat)
    requires WaitersOk(proposals, n) && n.role == Leader && e.index == |n.log.entries| + 1 && e.term == n.term
    requires m == n.(log := n.log.Append(e), waiters := n.waiters[e.index := call])
    requires call in proposals && call !in n.sent && proposals[call] == Proposal(n.id, e)
    ensures WaitersOk(proposals, m)
  {
  }

  lemma LeadLinked(h: History, ids: set<Id>, n: Node, m: Node, e: Entry)
    requires Linked(h, ids, n) && LeaderOk(h, ids, n) && n.role == Leader && n.term in h.reigns
    requires C.Extends(h, C.Lead(h, n.id, e))
    requires e.term == n.term && e.index == n.log.LastIndex() + 1 && !e.payload.Config?
    requires m == n.(log := n.log.Append(e), waiters := m.waiters)
    ensures var g := C.Lead(h, n.id, e);
            Linked(g, ids, m) && LeaderOk(g, ids, m) && CandidateOk(g, ids, m) && ProposalOk(g, Proposal(n.id, e))
  {
  }

  // ---- The apply loop and restarts ----

  /** A store command's entry, met in turn, is executed and not skipped. */
  lemma StoreStep(es: seq<Entry>, e: Entry)
    requires e.index == |es| + 1
    ensures StoreAfter(es + [e]) == ApplyEntry(StoreAfter(es), e).0
  {
  }

  /** Restarting from the store's applied index loses no store command. */
  lemma {:induction false} StoreRestart(es: seq<Entry>)
    ensures StoreAfter(es[..LastNormal(es)]) == StoreAfter(es)
  {
    if |es| > 0 && !es[|es| - 1].payload.Normal? {
      var init := es[..|es| - 1];
      StoreRestart(init);
      assert init[..LastNormal(init)] == es[..LastNormal(es)];
    } else {
      assert es[..|es|] == es;
    }
  }

  lemma ApplyTakeMoves(h: History, x: Context, s: Server, e: Entry)
    requires ServerOk(h, x, s) && s.applying == None && s.raft.lastApplied < s.raft.commitIndex
    requires s.raft.log.Valid() && s.raft.log.At(s.raft.lastApplied + 1) == Some(e)
    ensures var idx := s.raft.lastApplied + 1;
            var waiter := if idx in s.raft.waiters then Some(s.raft.waiters[idx]) else None;
            ServerOk(h, x, s.(raft := s.raft.(waiters := s.raft.waiters - {idx}), applying := Some(Applying(e, waiter, None))))
  {
    hide ServerOk, ReadsOk, SentOk, LeaderOk, CandidateOk, ResultAt, StoreAfter;
    var n, idx := s.raft, s.raft.lastApplied + 1;
    var waiter := if idx in n.waiters then Some(n.waiters[idx]) else None;
    var m := n.(waiters := n.waiters - {idx});
    var t := s.(raft := m, applying := Some(Applying(e, waiter, None)));
    Parts(h, x, s);
    SentSame(h, x.proposals, n, m);
    ReadsSame(x, s, t);
    WaitersLess(x.proposals, n, m);
    RoleKeeps(h, x.ids, n, m);
    if idx in n.waiters { assert Waiting(x.proposals, n, idx); }
    Assemble(h, x, t);
  }

  lemma WaitersLess(proposals: map<nat, Proposal>, n: Node, m: Node)
    requires WaitersOk(proposals, n) && m == n.(waiters := m.waiters)
    requires forall i | i in m.waiters :: i in n.waiters && m.waiters[i] == n.waiters[i]
    ensures WaitersOk(proposals, m)
  {
  }

  lemma RoleKeeps(h: History, ids: set<Id>, n: Node, m: Node)
    requires LeaderOk(h, ids, n) && CandidateOk(h, ids, n)
    requires m == n.(waiters := m.waiters, sent := m.sent, lastApplied := m.lastApplied)
    ensures LeaderOk(h, ids, m) && CandidateOk(h, ids, m)
  {
  }

  /** The branch for a committed entry missing from the log is never taken. */
  lemma CommittedPresent(h: History, x: Context, s: Server)
    requires ServerOk(h, x, s) && s.raft.lastApplied < s.raft.commitIndex && s.raft.log.Valid()
    ensures s.raft.lastApplied < |s.raft.log.entries|
    ensures s.raft.log.At(s.raft.lastApplied + 1) == Some(s.raft.log.entries[s.raft.lastApplied])
  {
  }

  lemma ApplyRunMoves(h: History, x: Context, s: Server)
    requires ServerOk(h, x, s) && s.applying.Some? && s.applying.value.result == None
    ensures var (store, r) := ApplyEntry(s.store, s.applying.value.entry);
            ServerOk(h, x, s.(store := store, applying := Some(s.applying.value.(result := Some(r)))))
  {
    hide ServerOk, ReadsOk, SentOk, LeaderOk, CandidateOk, WaitersOk, StoreAfter, ApplyEntry;
    Parts(h, x, s);
    var n, a := s.raft, s.applying.value;
    var es := n.log.entries[..n.lastApplied];
    assert n.log.entries[..n.lastApplied + 1] == es + [a.entry];
    StoreStep(es, a.entry);
    var (store, r) := ApplyEntry(s.store, a.entry);
    var t := s.(store := store, applying := Some(a.(result := Some(r))));
    ReadsSame(x, s, t);
    Assemble(h, x, t);
  }

  lemma ApplyFinishMoves(h: History, x: Context, s: Server)
    requires C.Inv(h) && ServerOk(h, x, s) && s.applying.Some? && s.applying.value.result.Some?
    ensures var a := s.applying.value;
            var n := if a.entry.index > s.raft.lastApplied then s.raft.(lastApplied := a.entry.index) else s.raft;
            ServerOk(h, x, s.(applying := None,
              raft := if a.waiter.Some? then Deliver(n, a.waiter.value, Applied(a.result.value)) else n))
  {
    hide C.Inv, ServerOk, ReadsOk, SentOk, LeaderOk, CandidateOk, WaitersOk, StoreAfter, ResultAt, Answered;
    Parts(h, x, s);
    var a := s.applying.value;
    var n := s.raft.(lastApplied := a.entry.index);
    var m := if a.waiter.Some? then Deliver(n, a.waiter.value, Applied(a.result.value)) else n;
    var t := s.(applying := None, raft := m);
    FinishAnswers(h, x, s);
    FinishSent(h, x, s, m);
    FinishWaiters(x, s, m);
    ReadsSame(x, s, t);
    RoleKeeps(h, x.ids, s.raft, m);
    Assemble(h, x, t);
  }

  lemma FinishAnswers(h: History, x: Context, s: Server)
    requires C.Inv(h) && Linked(h, x.ids, s.raft) && ApplyOk(x.proposals, s)
    requires s.applying.Some? && s.applying.value.result.Some?
    ensures Answered(h, s.applying.value.entry, s.applying.value.result.value)
  {
    hide C.Inv, StoreAfter, ApplyEntry, C.LogOk;
    var n, a := s.raft, s.applying.value;
    InLedger(h, x, n);
    var t :| t in h.reigns && n.commitIndex <= h.reigns[t].commit && Agree(n.log.entries, h.reigns[t].log, n.commitIndex);
    C.InvReign(h, t);
    CommitInLog(h, t);
    C.AgreeTake(n.log.entries, h.reigns[t].log, n.commitIndex, n.lastApplied + 1);
    ResultPrefix(n.log.entries, h.reigns[t].log, n.lastApplied + 1);
    assert h.reigns[t].log[n.lastApplied] == n.log.entries[n.lastApplied];
  }

  lemma FinishSent(h: History, x: Context, s: Server, m: Node)
    requires SentOk(h, x.proposals, s.raft) && ApplyOk(x.proposals, s)
    requires s.applying.Some? && s.applying.value.result.Some?
    requires Answered(h, s.applying.value.entry, s.applying.value.result.value)
    requires var a := s.applying.value; var n := s.raft.(lastApplied := a.entry.index);
             m == if a.waiter.Some? then Deliver(n, a.waiter.value, Applied(a.result.value)) else n
    ensures SentOk(h, x.proposals, m)
  {
    hide Answered, StoreAfter, ResultAt;
  }

  lemma FinishWaiters(x: Context, s: Server, m: Node)
    requires WaitersOk(x.proposals, s.raft) && ApplyOk(x.proposals, s)
    requires s.applying.Some? && s.applying.value.result.Some?
    requires s.raft.log.Valid() && s.raft.log.snapIndex == 0
    requires var a := s.applying.value; var n := s.raft.(lastApplied := a.entry.index);
             m == if a.waiter.Some? then Deliver(n, a.waiter.value, Applied(a.result.value)) else n
    ensures WaitersOk(x.proposals, m)
  {
    hide StoreAfter, ResultAt;
    forall i | i in m.waiters
      ensures Waiting(x.proposals, m, i)
    {
      assert Waiting(x.proposals, s.raft, i);
    }
  }

  lemma AbandonMoves(h: History, x: Context, s: Server, index: nat)
    requires ServerOk(h, x, s)
    ensures ServerOk(h, x, s.(raft := s.raft.(waiters := s.raft.waiters - {index})))
  {
    hide ServerOk, ReadsOk, SentOk, LeaderOk, CandidateOk, WaitersOk, ApplyOk;
    Parts(h, x, s);
    var m := s.raft.(waiters := s.raft.waiters - {index});
    SentSame(h, x.proposals, s.raft, m);
    ApplySame(x.proposals, s, s.(raft := m));
    ReadsSame(x, s, s.(raft := m));
    WaitersLess(x.proposals, s.raft, m);
    RoleKeeps(h, x.ids, s.raft, m);
    Assemble(h, x, s.(raft := m));
  }

  lemma RestartMoves(h: History, x: Context, s: Server) returns (g: History)
    requires C.Inv(h) && ServerOk(h, x, s)
    ensures Moved(h, g, s.raft.id) && ServerOk(g, x, Crashed(s))
  {
    hide C.Inv, C.Extends, ServerOk, ReadsOk, SentOk, LeaderOk, CandidateOk, WaitersOk, ApplyOk, Moved;
    var n := s.raft;
    Parts(h, x, s);
    CrashApplied(x, s);
    g := C.Restart(h, n.id, s.store.applied);
    C.RestartKeeps(h, n.id, s.store.applied);
    MovedOne(h, g, n.id);
    SentGrows(h, g, x, x, n);
    var m := Restart(n, s.store.applied);
    var t := Crashed(s);
    SentSame(g, x.proposals, n, m);
    NoReads(x, t);
    NoWaiters(x.proposals, n, m);
    JustFollows(g, x.ids, m);
    Assemble(g, x, t);
  }

  // ---- Crashes inside a handler ----

  /** A node that has taken in part of a request. */
  function Taken(n: Node, req: AppendReq, taken: nat, cut: bool): Node
    requires n.log.Valid() && PartFits(n.log, req.entries, taken, cut)
  {
    Acknowledge(n, req).(log := TakenIn(n.log, req.entries, taken, cut))
  }

  /** The part taken in, as a request of its own. */
  function Shorter(req: AppendReq, taken: nat): AppendReq
    requires taken <= |req.entries|
  {
    req.(entries := req.entries[..taken], leaderCommit := 0)
  }

  lemma ShorterOk(h: History, x: Context, req: AppendReq, taken: nat)
    requires AppendOk(h, x, req) && taken <= |req.entries|
    ensures AppendOk(h, x, Shorter(req, taken)) && req.term in h.reigns
  {
    var log, k := h.reigns[req.term].log, req.prevIndex;
    assert log[k..k + |req.entries|][..taken] == log[k..k + taken];
  }

  /** A tail is cut off only where the log stops agreeing with the leader's. */
  lemma CutAgrees(h: History, x: Context, n: Node, req: AppendReq, taken: nat)
    requires AppendOk(h, x, req) && taken < |req.entries| && req.term in h.reigns
    requires n.log.Valid() && n.log.snapIndex == 0 && Fits(n.log, req.entries[..taken])
    requires var m, leader, upto := Merge(n.log, req.entries[..taken]), h.reigns[req.term].log, req.prevIndex + taken;
             Agree(m.entries, leader, upto) && (m.entries == n.log.entries || |m.entries| == upto) && Plain(m.entries)
    requires Conflict(Merge(n.log, req.entries[..taken]), req.entries[taken])
    ensures var l := TakenIn(n.log, req.entries, taken, true);
            && Agree(l.entries, h.reigns[req.term].log, req.prevIndex + taken) && CutTo(h, n, Shorter(req, taken), l.entries)
            && Plain(l.entries) && l.Valid() && l.snapIndex == 0 && l.snapTerm == n.log.snapTerm
  {
    hide Merge, Agree;
    var m, leader, upto := Merge(n.log, req.entries[..taken]), h.reigns[req.term].log, req.prevIndex + taken;
    LongEnough(m.entries, leader, upto);
    assert req.entries[taken] == leader[upto] && req.entries[taken].index == upto + 1;
    assert m.TruncateFrom(upto + 1).entries == m.entries[..upto];
    DifferNext(n.log.entries, leader, upto);
  }

  lemma LongEnough(a: seq<Entry>, b: seq<Entry>, upto: nat)
    requires Agree(a, b, upto)
    ensures Agree(a[..upto], b, upto)
  {
  }

  lemma DifferNext(a: seq<Entry>, b: seq<Entry>, k: nat)
    requires k < |a| && k < |b| && a[k] != b[k]
    ensures !Agree(a, b, k + 1)
  {
    assert a[..k + 1][k] == a[k] && b[..k + 1][k] == b[k];
  }

  lemma AppendingMoves(h: History, x: Context, s: Server, req: AppendReq, taken: nat, cut: bool) returns (g: History)
    requires C.Inv(h) && ServerOk(h, x, s) && AppendOk(h, x, req) && req.to == s.raft.id && req.term >= s.raft.term
    requires s.raft.log.Valid() && !Mismatch(s.raft, req) && PartFits(s.raft.log, req.entries, taken, cut)
    requires cut ==> Conflict(Merge(s.raft.log, req.entries[..taken]), req.entries[taken])
    ensures Moved(h, g, s.raft.id) && ServerOk(g, x, s.(raft := Taken(s.raft, req, taken, cut)))
  {
    hide *;
    var t := s.(raft := Acknowledge(s.raft, req));
    var f := AcknowledgeMoves(h, x, s, req);
    MovedInv(h, f, s.raft.id);
    AppendGrows(h, f, x, x, req) by { SameContext(x); }
    SameMismatch(s.raft, t.raft, req);
    g := PartMoves(f, x, t, req, taken, cut);
    MovedTwice(h, f, g, s.raft.id);
    TakenFields(s.raft, req, taken, cut);
  }

  lemma SameMismatch(n: Node, m: Node, req: AppendReq)
    requires n.log.Valid() && m.log == n.log
    ensures Mismatch(m, req) == Mismatch(n, req)
  {
  }

  lemma TakenFields(n: Node, req: AppendReq, taken: nat, cut: bool)
    requires n.log.Valid() && PartFits(n.log, req.entries, taken, cut)
    ensures Taken(n, req, taken, cut) == Acknowledge(n, req).(log := TakenIn(n.log, req.entries, taken, cut))
  {
    hide Acknowledge, TakenIn;
  }

  /** The part of the request that was taken in, by a follower of its sender. */
  lemma PartMoves(h: History, x: Context, s: Server, req: AppendReq, taken: nat, cut: bool) returns (g: History)
    requires C.Inv(h) && ServerOk(h, x, s) && AppendOk(h, x, req) && req.to == s.raft.id
    requires s.raft.term == req.term && s.raft.role == Follower
    requires s.raft.log.Valid() && !Mismatch(s.raft, req) && PartFits(s.raft.log, req.entries, taken, cut)
    requires cut ==> Conflict(Merge(s.raft.log, req.entries[..taken]), req.entries[taken])
    ensures Moved(h, g, s.raft.id) && ServerOk(g, x, s.(raft := s.raft.(log := TakenIn(s.raft.log, req.entries, taken, cut))))
  {
    hide *;
    var n := s.raft;
    PartRequest(n.log, req, taken, cut);
    var part := Shorter(req, taken);
    ShorterOk(h, x, req, taken);
    Parts(h, x, s);
    LinkedOrigin(h, x.ids, n);
    SamePrevious(n, req, part);
    MergeAgrees(h, x, n, part);
    MergedOrigin(h, x, n, part);
    CutLength(h, n, part);
    if cut {
      CutAgrees(h, x, n, req, taken);
    } else {
      TakenWhole(n.log, req.entries, taken);
    }
    g := RewriteMoves(h, x, s, part, TakenIn(n.log, req.entries, taken, cut));
  }

  lemma PartRequest(l: RLog, req: AppendReq, taken: nat, cut: bool)
    requires PartFits(l, req.entries, taken, cut)
    ensures taken <= |req.entries| && Fits(l, req.entries[..taken]) && (cut ==> taken < |req.entries|)
    ensures var part := Shorter(req, taken);
            part.entries == req.entries[..taken] && part.prevIndex == req.prevIndex && part.prevTerm == req.prevTerm
            && part.to == req.to && part.term == req.term
  {
  }

  lemma SamePrevious(n: Node, req: AppendReq, part: AppendReq)
    requires n.log.Valid() && part.prevIndex == req.prevIndex && part.prevTerm == req.prevTerm
    ensures Mismatch(n, part) == Mismatch(n, req)
  {
  }

  lemma TakenWhole(l: RLog, es: seq<Entry>, taken: nat)
    requires l.Valid() && PartFits(l, es, taken, false)
    ensures TakenIn(l, es, taken, false) == Merge(l, es[..taken]) && TakenIn(l, es, taken, false).Valid()
  {
    hide Merge;
  }

  lemma LinkedOrigin(h: History, ids: set<Id>, n: Node)
    requires Linked(h, ids, n)
    ensures n.log.snapIndex == 0 && n.log.snapTerm == 0 && n.log.Valid()
  {
  }

  lemma CutLength(h: History, n: Node, req: AppendReq)
    requires n.log.Valid() && Fits(n.log, req.entries)
    ensures CutTo(h, n, req, Merge(n.log, req.entries).entries) ==> |Merge(n.log, req.entries).entries| == req.prevIndex + |req.entries|
  {
  }

  /** A restarted node has what was on disk, and nobody waits. */
  lemma RestartKeepsDisk(s: Server)
    ensures var m := Crashed(s).raft;
            && m.id == s.raft.id && m.log == s.raft.log && m.term == s.raft.term && m.role == Follower
  {
  }

  lemma HaltedIdle(s: Server)
    requires s.raft.log.Valid()
    ensures Crashed(s.(raft := Halted(s.raft, Idle))) == Crashed(s)
  {
  }

  lemma HaltedVoting(s: Server, req: VoteReq)
    requires s.raft.log.Valid() && req.term > s.raft.term
    ensures Crashed(s.(raft := Halted(s.raft, Voting(req)))) == Crashed(s).(raft := BecomeFollower(Crashed(s).raft, req.term))
  {
  }

  lemma HaltedStanding(s: Server)
    requires s.raft.log.Valid()
    ensures Crashed(s.(raft := Halted(s.raft, Standing))) == Crashed(Crashed(s).(raft := BecomeCandidate(Crashed(s).raft)))
  {
  }

  lemma HaltedAppending(s: Server, req: AppendReq, taken: nat, cut: bool)
    requires s.raft.log.Valid() && req.term >= s.raft.term && PartFits(s.raft.log, req.entries, taken, cut)
    ensures Crashed(s.(raft := Halted(s.raft, Appending(req, taken, cut))))
            == Crashed(Crashed(s).(raft := Taken(Crashed(s).raft, req, taken, cut)))
  {
    hide Merge;
  }

  lemma VotingCrash(h: History, x: Context, s: Server, req: VoteReq) returns (g: History)
    requires C.Inv(h) && ServerOk(h, x, Crashed(s)) && s.raft.log.Valid() && req.term > s.raft.term
    ensures Moved(h, g, s.raft.id) && ServerOk(g, x, Crashed(s.(raft := Halted(s.raft, Voting(req)))))
  {
    hide *;
    RestartKeepsDisk(s);
    g := FollowerMoves(h, x, Crashed(s), req.term);
    HaltedVoting(s, req);
  }

  lemma StandingCrash(h: History, x: Context, s: Server) returns (g: History)
    requires C.Inv(h) && ServerOk(h, x, Crashed(s)) && s.raft.log.Valid()
    ensures Moved(h, g, s.raft.id) && ServerOk(g, x, Crashed(s.(raft := Halted(s.raft, Standing))))
  {
    hide *;
    RestartKeepsDisk(s);
    var t := Crashed(s).(raft := BecomeCandidate(Crashed(s).raft));
    var f := CandidateMoves(h, x, Crashed(s));
    MovedInv(h, f, s.raft.id);
    StandsId(Crashed(s).raft);
    g := RestartMoves(f, x, t);
    MovedTwice(h, f, g, s.raft.id);
    HaltedStanding(s);
  }

  lemma StandsId(n: Node)
    ensures BecomeCandidate(n).id == n.id
  {
  }

  lemma AppendingCrash(h: History, x: Context, s: Server, net: set<Msg>, midway: Midway) returns (g: History)
    requires C.Inv(h) && ServerOk(h, x, Crashed(s)) && s.raft.log.Valid() && midway.Appending? && AppendOk(h, x, midway.areq)
    requires PartFits(s.raft.log, midway.areq.entries, midway.taken, midway.cut) && Reaches(net, s.raft, midway)
    ensures Moved(h, g, s.raft.id) && ServerOk(g, x, Crashed(s.(raft := Halted(s.raft, midway))))
  {
    hide *;
    RestartKeepsDisk(s);
    ReachedPart(net, s.raft, midway);
    ReachedRequest(net, s.raft, Crashed(s).raft, midway);
    g := AppendingRestart(h, x, Crashed(s), midway.areq, midway.taken, midway.cut);
    HaltedAppending(s, midway.areq, midway.taken, midway.cut);
  }

  lemma AppendingRestart(h: History, x: Context, s: Server, req: AppendReq, taken: nat, cut: bool) returns (g: History)
    requires C.Inv(h) && ServerOk(h, x, s) && AppendOk(h, x, req) && req.to == s.raft.id && req.term >= s.raft.term
    requires s.raft.log.Valid() && !Mismatch(s.raft, req) && PartFits(s.raft.log, req.entries, taken, cut)
    requires cut ==> Conflict(Merge(s.raft.log, req.entries[..taken]), req.entries[taken])
    ensures Moved(h, g, s.raft.id) && ServerOk(g, x, Crashed(s.(raft := Taken(s.raft, req, taken, cut))))
  {
    hide *;
    var f := AppendingMoves(h, x, s, req, taken, cut);
    MovedInv(h, f, s.raft.id);
    TakenId(s.raft, req, taken, cut);
    g := RestartMoves(f, x, s.(raft := Taken(s.raft, req, taken, cut)));
    MovedTwice(h, f, g, s.raft.id);
  }

  lemma TakenId(n: Node, req: AppendReq, taken: nat, cut: bool)
    requires n.log.Valid() && PartFits(n.log, req.entries, taken, cut)
    ensures Taken(n, req, taken, cut).id == n.id
  {
    hide Merge;
  }

  /** What was checked before the crash holds of the log on disk. */
  lemma ReachedRequest(net: set<Msg>, n: Node, m: Node, midway: Midway)
    requires n.log.Valid() && Reaches(net, n, midway) && midway.Appending? && m.log == n.log
    ensures var req := midway.areq;
            && req.to == n.id && req.term >= n.term && !Mismatch(m, req) && PartFits(m.log, req.entries, midway.taken, midway.cut)
            && (midway.cut ==> Conflict(Merge(m.log, req.entries[..midway.taken]), req.entries[midway.taken]))
  {
    hide Merge, Conflict;
  }

  /**
    A crash inside a handler comes to the same as a restart after which the handler's
    durable writes so far are made, and another restart.
   */
  lemma CrashMoves(h: History, x: Context, s: Server, net: set<Msg>, midway: Midway) returns (g: History)
    requires C.Inv(h) && ServerOk(h, x, s) && s.raft.log.Valid() && Reaches(net, s.raft, midway)
    requires midway.Appending? ==> PartFits(s.raft.log, midway.areq.entries, midway.taken, midway.cut) && AppendOk(h, x, midway.areq)
    ensures Moved(h, g, s.raft.id) && ServerOk(g, x, Crashed(s.(raft := Halted(s.raft, midway))))
  {
    hide *;
    var f := RestartMoves(h, x, s);
    MovedInv(h, f, s.raft.id);
    match midway {
      case Idle =>
        g := f;
        NotMoved(f, s.raft.id);
        HaltedIdle(s);
      case Voting(req) =>
        ReachedVote(net, s.raft, req);
        g := VotingCrash(f, x, s, req);
      case Standing =>
        g := StandingCrash(f, x, s);
      case Appending(req, _, _) =>
        AppendGrows(h, f, x, x, req) by { SameContext(x); }
        g := AppendingCrash(f, x, s, net, midway);
    }
    MovedTwice(h, f, g, s.raft.id);
  }

  lemma ReachedVote(net: set<Msg>, n: Node, req: VoteReq)
    requires n.log.Valid() && Reaches(net, n, Voting(req))
    ensures req.term > n.term
  {
  }

  lemma NoReads(x: Context, s: Server)
    requires s.readCalls == map[]
    ensures ReadsOk(x, s)
  {
  }

  lemma CrashApplied(x: Context, s: Server)
    requires ApplyOk(x.proposals, s) && s.raft.log.snapIndex == 0
    ensures s.store.applied <= s.raft.commitIndex
    ensures ApplyOk(x.proposals, Crashed(s))
  {
    hide ResultAt, Fold;
    var n := s.raft;
    var k := if s.applying.Some? && s.applying.value.result.Some? then n.lastApplied + 1 else n.lastApplied;
    var es := n.log.entries[..k];
    assert s.store == StoreAfter(es);
    StoreRestart(es);
    assert es[..LastNormal(es)] == n.log.entries[..s.store.applied];
  }

  // ---- Messages that steps send ----

  /**
    The commit clamp is sound at the source: a leader sends its whole tail, so its
    commit index never exceeds what the request brings a follower to.
   */
  lemma BuildAppendOk(h: History, x: Context, s: Server, peer: Id)
    requires C.Inv(h) && ServerOk(h, x, s) && s.raft.role == Leader && peer in Peers(s.raft)
    ensures s.raft.log.Valid()
    ensures BuildAppend(s.raft, peer).Some? && AppendOk(h, x, BuildAppend(s.raft, peer).value)
  {
    hide C.Inv, ServerOk, SentOk, ReadsOk, WaitersOk, C.LogOk, C.CommitOk, C.TermsBelow, ResultAt, StoreAfter;
    Parts(h, x, s);
    CommitInside(x.proposals, s);
    LinkedLength(h, x.ids, s.raft);
    InLedger(h, x, s.raft);
    TailOk(h, x, s.raft, peer);
  }

  lemma TailBuilt(n: Node, peer: Id)
    requires n.log.Valid() && n.log.snapIndex == 0 && n.log.snapTerm == 0 && peer in n.nextIndex
    requires 1 <= n.nextIndex[peer] <= |n.log.entries| + 1 && |n.log.entries| == n.log.LastIndex()
    ensures var es, from := n.log.entries, n.nextIndex[peer] - 1;
            BuildAppend(n, peer) ==
            Some(AppendReq(n.id, peer, None, n.term, from, if from == 0 then 0 else es[from - 1].term, es[from..], n.commitIndex))
  {
    var es, from := n.log.entries, n.nextIndex[peer] - 1;
    assert n.log.From(from + 1) == es[from..];
  }

  lemma TailOk(h: History, x: Context, n: Node, peer: Id)
    requires Linked(h, x.ids, n) && LeaderOk(h, x.ids, n) && C.MemberOk(h, n.id) && n.role == Leader && peer in Peers(n)
    requires n.commitIndex <= |n.log.entries| == n.log.LastIndex()
    ensures BuildAppend(n, peer).Some? && AppendOk(h, x, BuildAppend(n, peer).value)
  {
    hide C.LogOk, C.CommitOk, C.TermsBelow, BuildAppend;
    TailBuilt(n, peer);
    var es, from := n.log.entries, n.nextIndex[peer] - 1;
    assert es[from..from + |es[from..]|] == es[from..];
  }

  lemma ProbesOk(h: History, x: Context, s: Server, call: nat, r: ReadCall, peer: Id)
    requires C.Inv(h) && ServerOk(h, x, s) && s.raft.role == Leader && peer in Peers(s.raft)
    requires call in s.readCalls && r == s.readCalls[call] && r.term == s.raft.term
    ensures AppendOk(h, x, BuildProbe(s.raft, peer, call, r.term))
  {
    hide C.Inv, SentOk, WaitersOk, C.LogOk, C.CommitOk, C.TermsBelow, ApplyOk;
    InLedger(h, x, s.raft);
    assert ReadOk(x, s.raft.id, call, r);
  }

  /** A peer that answers in the read's term voted for no leader that reigned later when the read began. */
  lemma AnswerersVoted(k: History, h: History, p: Id, t: nat)
    requires C.Inv(k) && C.Extends(k, h) && p in h.members && h.members[p].term <= t
    ensures NotElector(k, p, t)
  {
    hide C.Inv;
    forall u | u in k.reigns && u > t
      ensures p !in k.reigns[u].quorum
    {
      if p in k.reigns[u].quorum {
        ElectorTerm(k, p, u);
        assert false;
      }
    }
  }

  lemma ElectorTerm(k: History, p: Id, u: nat)
    requires C.Inv(k) && u in k.reigns && p in k.reigns[u].quorum
    ensures p in k.members && k.members[p].term >= u
  {
    C.InvReign(k, u);
    C.InvParts(k);
    C.VoteOf(k, C.Ballot(p, u));
  }

  lemma AppendReplyOk(h: History, g: History, x: Context, n: Node, calls: nat, req: AppendReq)
    requires AppendOk(h, x, req) && C.Extends(h, g) && CapturesOk(h, x.captures, calls)
    requires Linked(h, x.ids, n) && req.to == n.id && WellFormed(req)
    requires HandleAppend(n, req).1.success ==> Holds(g, req.to, req.term, req.prevIndex + |req.entries|)
    ensures MsgOk(g, x, AppendReply(req, HandleAppend(n, req).1))
  {
    hide C.Inv, C.Extends, MergeEntries, Mismatch, Flush, Holds, NotElector;
    AppendGrows(h, g, x, x, req) by { SameContext(x); }
    var resp := HandleAppend(n, req).1;
    if req.call.Some? && resp.term <= req.term {
      AnswererTerm(n, req);
      AnswerersVoted(x.captures[req.call.value], h, req.to, req.term);
    }
  }

  lemma AnswererTerm(n: Node, req: AppendReq)
    requires n.log.Valid() && WellFormed(req)
    ensures HandleAppend(n, req).1.term <= req.term ==> n.term <= req.term
  {
  }

  // ---- The step ----

  ghost predicate Captured(captures: map<nat, History>, captures': map<nat, History>) {
    forall k | k in captures :: k in captures' && captures'[k] == captures[k]
  }

  function ContextOf(c: Cluster, captures: map<nat, History>): Context {
    Context(c.servers.Keys, c.proposals, captures)
  }

  lemma ServerOf(h: History, captures: map<nat, History>, c: Cluster, id: Id)
    requires Related(h, captures, c) && id in c.servers
    ensures C.Inv(h) && c.servers[id].raft.id == id && ServerOk(h, ContextOf(c, captures), c.servers[id])
    ensures c.servers[id].raft.log.Valid() && h.members.Keys == c.servers.Keys
  {
  }

  lemma MessageOf(h: History, captures: map<nat, History>, c: Cluster, m: Msg)
    requires Related(h, captures, c) && m in c.net
    ensures MsgOk(h, ContextOf(c, captures), m) && CapturesOk(h, captures, c.calls) && ProposalsOk(h, c.proposals, c.calls)
  {
  }

  /** One server, the messages it sends, and the calls it begins: everything else is as it was. */
  lemma Settle(h: History, g: History, caps: map<nat, History>, caps': map<nat, History>,
               c: Cluster, d: Cluster, id: Id)
    requires Related(h, caps, c) && Moved(h, g, id) && id in c.servers && id in d.servers
    requires d.servers == c.servers[id := d.servers[id]] && d.servers[id].raft.id == id
    requires Wider(ContextOf(c, caps), ContextOf(d, caps'))
    requires ServerOk(g, ContextOf(d, caps'), d.servers[id])
    requires forall m | m in d.net && m !in c.net :: MsgOk(g, ContextOf(d, caps'), m)
    requires ProposalsOk(g, d.proposals, d.calls) && CapturesOk(g, caps', d.calls)
    ensures Related(g, caps', d)
  {
    hide C.Inv, C.Extends, ServerOk, MsgOk, ProposalsOk, CapturesOk, Wider;
    var x, y := ContextOf(c, caps), ContextOf(d, caps');
    MovedInv(h, g, id);
    ServerOf(h, caps, c, id);
    forall j | j in d.servers
      ensures d.servers[j].raft.id == j && ServerOk(g, y, d.servers[j])
    {
      if j != id { ServerFrame(h, g, x, y, c.servers[j]); }
    }
    forall m | m in d.net
      ensures MsgOk(g, y, m)
    {
      if m in c.net { MsgGrows(h, g, x, y, m); }
    }
  }

  lemma ProposalsGrow(h: History, g: History, proposals: map<nat, Proposal>, calls: nat, calls': nat)
    requires ProposalsOk(h, proposals, calls) && C.Extends(h, g) && calls <= calls'
    ensures ProposalsOk(g, proposals, calls')
  {
  }

  lemma CapturesGrow(h: History, g: History, caps: map<nat, History>, calls: nat, calls': nat)
    requires CapturesOk(h, caps, calls) && C.Extends(h, g) && calls <= calls'
    ensures CapturesOk(g, caps, calls')
  {
    hide C.Inv;
    forall k | k in caps
      ensures C.Extends(caps[k], g)
    {
      ExtendsTwice(caps[k], h, g);
    }
  }

  lemma ExtendsTwice(h: History, g: History, f: History)
    requires C.Extends(h, g) && C.Extends(g, f)
    ensures C.Extends(h, f)
  {
  }

  /** The common case: no call begins. */
  lemma SettleSame(h: History, g: History, caps: map<nat, History>, c: Cluster, id: Id, s: Server, ms: set<Msg>)
    requires Related(h, caps, c) && Moved(h, g, id) && id in c.servers && s.raft.id == id
    requires ServerOk(g, ContextOf(c, caps), s)
    requires forall m | m in ms :: MsgOk(g, ContextOf(c, caps), m)
    ensures Related(g, caps, Send(Update(c, id, s), ms))
  {
    hide C.Inv, C.Extends, ServerOk, MsgOk, Moved, ProposalsOk, CapturesOk, Related;
    var d := Send(Update(c, id, s), ms);
    LedgersOf(h, caps, c);
    MovedInv(h, g, id);
    assert d.servers.Keys == c.servers.Keys;
    assert ContextOf(d, caps) == ContextOf(c, caps);
    SameContext(ContextOf(c, caps));
    ProposalsGrow(h, g, c.proposals, c.calls, c.calls);
    CapturesGrow(h, g, caps, c.calls, c.calls);
    Settle(h, g, caps, caps, c, d, id);
  }

  lemma LedgersOf(h: History, caps: map<nat, History>, c: Cluster)
    requires Related(h, caps, c)
    ensures ProposalsOk(h, c.proposals, c.calls) && CapturesOk(h, caps, c.calls) && C.Inv(h)
  {
  }

  // ---- Every action ----

  /** What each case below establishes. */
  ghost predicate Simulates(h: History, caps: map<nat, History>, g: History, caps': map<nat, History>, d: Cluster) {
    Related(g, caps', d) && C.Extends(h, g) && Captured(caps, caps')
  }

  lemma Simulated(h: History, caps: map<nat, History>, g: History, d: Cluster, id: Id)
    requires Moved(h, g, id) && Related(g, caps, d)
    ensures Simulates(h, caps, g, caps, d)
  {
    hide C.Inv, Related;
  }

  /** A server alone moves. */
  lemma MoveOnly(h: History, g: History, caps: map<nat, History>, c: Cluster, id: Id, s: Server)
    requires Related(h, caps, c) && Moved(h, g, id) && id in c.servers && s.raft.id == id
    requires ServerOk(g, ContextOf(c, caps), s)
    ensures Simulates(h, caps, g, caps, Update(c, id, s))
  {
    hide C.Inv, C.Extends, ServerOk, Moved, Related;
    SettleSame(h, g, caps, c, id, s, {});
    assert Send(Update(c, id, s), {}) == Update(c, id, s);
    Simulated(h, caps, g, Update(c, id, s), id);
  }

  /** Messages alone are sent. */
  lemma SendOnly(h: History, caps: map<nat, History>, c: Cluster, id: Id, ms: set<Msg>)
    requires Related(h, caps, c) && id in c.servers
    requires forall m | m in ms :: MsgOk(h, ContextOf(c, caps), m)
    ensures Simulates(h, caps, h, caps, Send(c, ms))
  {
    hide C.Inv, C.Extends, ServerOk, Moved, MsgOk, Related;
    ServerOf(h, caps, c, id);
    NotMoved(h, id);
    SettleSame(h, h, caps, c, id, c.servers[id], ms);
    assert Update(c, id, c.servers[id]) == c;
    Simulated(h, caps, h, Send(c, ms), id);
  }

  lemma ExpireSimulated(h: History, caps: map<nat, History>, c: Cluster, id: Id)
    requires Related(h, caps, c) && id in c.servers
    ensures Simulates(h, caps, h, caps, StepExpire(c, id))
  {
    hide C.Inv, C.Extends, ServerOk, Related;
    var s := c.servers[id];
    var t := s.(raft := s.raft.(recent := false));
    ServerOf(h, caps, c, id);
    Touched(h, ContextOf(c, caps), s, t);
    NotMoved(h, id);
    MoveOnly(h, h, caps, c, id, t);
  }

  lemma AbandonSimulated(h: History, caps: map<nat, History>, c: Cluster, id: Id, index: nat)
    requires Related(h, caps, c) && id in c.servers
    ensures Simulates(h, caps, h, caps, StepAbandon(c, id, index))
  {
    hide C.Inv, C.Extends, ServerOk, Related, Moved;
    ServerOf(h, caps, c, id);
    AbandonMoves(h, ContextOf(c, caps), c.servers[id], index);
    NotMoved(h, id);
    var n := c.servers[id].raft;
    MoveOnly(h, h, caps, c, id, c.servers[id].(raft := n.(waiters := n.waiters - {index})));
  }

  lemma CrashSimulated(h: History, caps: map<nat, History>, c: Cluster, id: Id, midway: Midway) returns (g: History)
    requires Related(h, caps, c) && id in c.servers && c.servers[id].raft.log.Valid() && Reaches(c.net, c.servers[id].raft, midway)
    ensures Simulates(h, caps, g, caps, StepCrash(c, id, midway))
  {
    hide *;
    var s := c.servers[id];
    ServerOf(h, caps, c, id);
    ReachedPart(c.net, s.raft, midway);
    if midway.Appending? {
      RequestOf(h, caps, c, midway.areq);
    }
    g := CrashMoves(h, ContextOf(c, caps), s, c.net, midway);
    CrashedId(s, midway);
    MoveOnly(h, g, caps, c, id, Crashed(s.(raft := Halted(s.raft, midway))));
    CrashedAlone(c, id, midway);
  }

  lemma CrashedAlone(c: Cluster, id: Id, midway: Midway)
    requires id in c.servers && c.servers[id].raft.log.Valid() && Reaches(c.net, c.servers[id].raft, midway)
    ensures midway.Appending? ==> PartFits(c.servers[id].raft.log, midway.areq.entries, midway.taken, midway.cut)
    ensures StepCrash(c, id, midway) == Update(c, id, Crashed(c.servers[id].(raft := Halted(c.servers[id].raft, midway))))
  {
    hide Halted, Crashed, Merge, Conflict, Mismatch;
  }

  lemma ReachedPart(net: set<Msg>, n: Node, midway: Midway)
    requires n.log.Valid() && Reaches(net, n, midway)
    ensures midway.Appending? ==> PartFits(n.log, midway.areq.entries, midway.taken, midway.cut) && AppendRequest(midway.areq) in net
  {
  }

  lemma RequestOf(h: History, caps: map<nat, History>, c: Cluster, req: AppendReq)
    requires Related(h, caps, c) && AppendRequest(req) in c.net
    ensures AppendOk(h, ContextOf(c, caps), req)
  {
    hide Related, AppendOk;
    MessageOf(h, caps, c, AppendRequest(req));
  }

  lemma CrashedId(s: Server, midway: Midway)
    requires s.raft.log.Valid()
    requires midway.Appending? ==> PartFits(s.raft.log, midway.areq.entries, midway.taken, midway.cut)
    ensures Crashed(s.(raft := Halted(s.raft, midway))).raft.id == s.raft.id
  {
    hide Merge;
  }

  lemma TakeSimulated(h: History, caps: map<nat, History>, c: Cluster, id: Id)
    requires Related(h, caps, c) && Enabled(c, ApplyTake(id)) && Sound(c)
    ensures Simulates(h, caps, h, caps, Step(c, ApplyTake(id)))
  {
    hide C.Inv, C.Extends, ServerOk, Related, Moved, Sound;
    var s, x := c.servers[id], ContextOf(c, caps);
    ServerOf(h, caps, c, id);
    NotMoved(h, id);
    CommittedPresent(h, x, s);
    ApplyTakeMoves(h, x, s, s.raft.log.entries[s.raft.lastApplied]);
    MoveOnly(h, h, caps, c, id, StepApplyTake(c, id).servers[id]);
  }

  lemma RunsSimulated(h: History, caps: map<nat, History>, c: Cluster, id: Id)
    requires Related(h, caps, c) && Enabled(c, ApplyRun(id)) && Sound(c)
    ensures Simulates(h, caps, h, caps, Step(c, ApplyRun(id)))
  {
    hide C.Inv, C.Extends, ServerOk, Related, Moved, ApplyEntry, Sound;
    var s := c.servers[id];
    ServerOf(h, caps, c, id);
    NotMoved(h, id);
    ApplyRunMoves(h, ContextOf(c, caps), s);
    MoveOnly(h, h, caps, c, id, StepApplyRun(c, id).servers[id]);
  }

  lemma FinishSimulated(h: History, caps: map<nat, History>, c: Cluster, id: Id)
    requires Related(h, caps, c) && Enabled(c, ApplyFinish(id)) && Sound(c)
    ensures Simulates(h, caps, h, caps, Step(c, ApplyFinish(id)))
  {
    hide C.Inv, C.Extends, ServerOk, Related, Moved, Deliver, Sound;
    var s := c.servers[id];
    ServerOf(h, caps, c, id);
    NotMoved(h, id);
    ApplyFinishMoves(h, ContextOf(c, caps), s);
    DeliverId(s.raft);
    MoveOnly(h, h, caps, c, id, StepApplyFinish(c, id).servers[id]);
  }

  lemma DeliverId(n: Node)
    ensures forall call, o, k: nat :: Deliver(n.(lastApplied := k), call, o).id == n.id
    ensures forall call, o :: Deliver(n, call, o).id == n.id
  {
  }

  lemma ReplicateSimulated(h: History, caps: map<nat, History>, c: Cluster, id: Id, peer: Id)
    requires Related(h, caps, c) && id in c.servers && c.servers[id].raft.role == Leader && peer in Peers(c.servers[id].raft)
    requires c.servers[id].raft.log.Valid()
    ensures Simulates(h, caps, h, caps, StepReplicate(c, id, peer))
  {
    hide C.Inv, C.Extends, ServerOk, Related, Moved, AppendOk, BuildAppend;
    ServerOf(h, caps, c, id);
    BuildAppendOk(h, ContextOf(c, caps), c.servers[id], peer);
    SendOnly(h, caps, c, id, {AppendRequest(BuildAppend(c.servers[id].raft, peer).value)});
  }

  lemma AppendRequestSimulated(h: History, caps: map<nat, History>, c: Cluster, req: AppendReq) returns (g: History)
    requires Related(h, caps, c) && AppendRequest(req) in c.net && req.to in c.servers
    requires c.servers[req.to].raft.log.Valid() && WellFormed(req)
    ensures Simulates(h, caps, g, caps, StepAppendRequest(c, req))
  {
    hide C.Inv, C.Extends, ServerOk, Related, Moved, HandleAppend, AppendOk, CapturesOk, ProposalsOk;
    var s, x := c.servers[req.to], ContextOf(c, caps);
    ServerOf(h, caps, c, req.to);
    MessageOf(h, caps, c, AppendRequest(req));
    g := AppendRequestMoves(h, x, s, req);
    MovedInv(h, g, req.to);
    Parts(h, x, s);
    AppendReplyOk(h, g, x, s.raft, c.calls, req);
    var (n, resp) := HandleAppend(s.raft, req);
    SettleSame(h, g, caps, c, req.to, s.(raft := n), {AppendReply(req, resp)});
    Simulated(h, caps, g, StepAppendRequest(c, req), req.to);
  }

  lemma AppendReplySimulated(h: History, caps: map<nat, History>, c: Cluster, req: AppendReq, resp: AppendResp)
    returns (g: History)
    requires Related(h, caps, c) && AppendReply(req, resp) in c.net && req.from in c.servers
    requires c.servers[req.from].raft.log.Valid()
    ensures Simulates(h, caps, g, caps, StepAppendReply(c, req, resp))
  {
    hide C.Inv, C.Extends, ServerOk, Related, Moved, MsgOk, OnAppendResp, BecomeFollower, CapturesOk, ProposalsOk;
    var s, x, id := c.servers[req.from], ContextOf(c, caps), req.from;
    ServerOf(h, caps, c, id);
    MessageOf(h, caps, c, AppendReply(req, resp));
    if req.call == None {
      g := AppendReplyMoves(h, x, s, req, resp);
      RespondedId(s.raft, req, resp);
      MoveOnly(h, g, caps, c, id, s.(raft := OnAppendResp(s.raft, req, resp)));
    } else if resp.term > req.term && resp.term > s.raft.term {
      g := FollowerMoves(h, x, s, resp.term);
      BecomeFollowerFields(s.raft, resp.term);
      MoveOnly(h, g, caps, c, id, s.(raft := BecomeFollower(s.raft, resp.term)));
    } else {
      g := h;
      NotMoved(h, id);
      var call := req.call.value;
      if resp.term <= req.term && call in s.readCalls {
        AckOk(h, x, s, req, resp);
        MoveOnly(h, h, caps, c, id, StepAppendReply(c, req, resp).servers[id]);
      } else {
        SendOnly(h, caps, c, id, {});
        assert Send(c, {}) == c;
      }
    }
  }

  lemma RespondedId(n: Node, req: AppendReq, resp: AppendResp)
    requires n.log.Valid()
    ensures OnAppendResp(n, req, resp).id == n.id
  {
  }

  lemma AckOk(h: History, x: Context, s: Server, req: AppendReq, resp: AppendResp)
    requires ServerOk(h, x, s) && MsgOk(h, x, AppendReply(req, resp)) && req.from == s.raft.id
    requires req.call.Some? && req.call.value in s.readCalls && resp.term <= req.term
    ensures var call := req.call.value;
            var r := s.readCalls[call];
            ServerOk(h, x, s.(readCalls := s.readCalls[call := r.(acks := r.acks + {req.to})]))
  {
    hide NotElector, ServerOk, SentOk, ApplyOk, WaitersOk;
    Parts(h, x, s);
    var call := req.call.value;
    var r := s.readCalls[call];
    assert ReadOk(x, s.raft.id, call, r);
    var t := s.(readCalls := s.readCalls[call := r.(acks := r.acks + {req.to})]);
    ApplySame(x.proposals, s, t);
    Assemble(h, x, t);
  }

  lemma VoteRequestSimulated(h: History, caps: map<nat, History>, c: Cluster, req: VoteReq) returns (g: History)
    requires Related(h, caps, c) && VoteRequest(req) in c.net && req.to in c.servers
    ensures Simulates(h, caps, g, caps, StepVoteRequest(c, req))
  {
    hide C.Inv, C.Extends, ServerOk, Related, Moved, HandleVote, HandlePreVote, CapturesOk, ProposalsOk, VotedFor;
    var s, x := c.servers[req.to], ContextOf(c, caps);
    ServerOf(h, caps, c, req.to);
    MessageOf(h, caps, c, VoteRequest(req));
    if req.preVote {
      g := h;
      SendOnly(h, caps, c, req.to, {VoteReply(req, HandlePreVote(s.raft, req))});
    } else {
      g := VoteRequestMoves(h, x, s, req);
      var (n, resp) := HandleVote(s.raft, req);
      VotedId(s.raft, req);
      SettleSame(h, g, caps, c, req.to, s.(raft := n), {VoteReply(req, resp)});
      Simulated(h, caps, g, StepVoteRequest(c, req), req.to);
    }
  }

  lemma VotedId(n: Node, req: VoteReq)
    ensures HandleVote(n, req).0.id == n.id
  {
  }

  lemma StandAs(c: Cluster, id: Id)
    requires id in c.servers && c.servers[id].raft.log.Valid()
    ensures var m := BecomeCandidate(c.servers[id].raft);
            if ClusterSize(m) == 1 then Stand(c, id) == Update(c, id, c.servers[id].(raft := BecomeLeader(m)))
            else Stand(c, id) == Send(Update(c, id, c.servers[id].(raft := m)), VoteRequests(m, false, m.term, m.term))
  {
  }

  /** An election starts: the node votes for itself, leads if it is alone, and asks its peers otherwise. */
  lemma StandSimulated(h: History, caps: map<nat, History>, c: Cluster, id: Id) returns (g: History)
    requires Related(h, caps, c) && id in c.servers && c.servers[id].raft.role != Leader
    requires c.servers[id].raft.log.Valid()
    ensures Simulates(h, caps, g, caps, Stand(c, id))
  {
    hide C.Inv, C.Extends, ServerOk, Related, Moved, MsgOk, BecomeLeader, CapturesOk, ProposalsOk, Stand, VoteRequests, ClusterSize, RLog.Valid;
    var s, x := c.servers[id], ContextOf(c, caps);
    ServerOf(h, caps, c, id);
    StandAs(c, id);
    var n := s.raft;
    var f := CandidateMoves(h, x, s);
    var m := BecomeCandidate(n);
    if ClusterSize(m) == 1 {
      MovedInv(h, f, id);
      OneIsMajority(m);
      g := LeaderMoves(f, x, s.(raft := m));
      MovedTwice(h, f, g, id);
      LeadsId(m);
      MoveOnly(h, g, caps, c, id, s.(raft := BecomeLeader(m)));
    } else {
      g := f;
      StandMessages(h, g, x, s, n);
      SettleSame(h, g, caps, c, id, s.(raft := m), VoteRequests(m, false, m.term, m.term));
      Simulated(h, caps, g, Stand(c, id), id);
    }
  }

  lemma OneIsMajority(n: Node)
    requires ClusterSize(n) == 1
    ensures Majority(n) == 1
  {
  }

  lemma LeadsId(n: Node)
    requires n.log.Valid()
    ensures BecomeLeader(n).id == n.id && BecomeLeader(n).role == Leader
  {
  }

  lemma StandMessages(h: History, g: History, x: Context, s: Server, n: Node)
    requires ServerOk(h, x, s) && n == s.raft && StoodWith(g, n.id, n.term + 1, n.log.entries)
    ensures var m := BecomeCandidate(n);
            forall msg | msg in VoteRequests(m, false, m.term, m.term) :: MsgOk(g, x, msg)
  {
    hide SentOk, ReadsOk, WaitersOk, ApplyOk;
    LinkedLength(h, x.ids, n);
  }

  lemma PreVoteMessages(h: History, x: Context, s: Server, round: nat, term: nat)
    requires ServerOk(h, x, s)
    ensures forall msg | msg in VoteRequests(s.raft, true, round, term) :: MsgOk(h, x, msg)
  {
  }

  lemma VoteReplySimulated(h: History, caps: map<nat, History>, c: Cluster, req: VoteReq, resp: VoteResp)
    returns (g: History)
    requires Related(h, caps, c) && VoteReply(req, resp) in c.net && req.from in c.servers
    requires c.servers[req.from].raft.log.Valid()
    ensures Simulates(h, caps, g, caps, StepVoteReply(c, req, resp))
  {
    hide C.Inv, C.Extends, ServerOk, Related, Moved, MsgOk, OnVoteResp, StepPreVoteReply, CapturesOk, ProposalsOk;
    var s, x := c.servers[req.from], ContextOf(c, caps);
    ServerOf(h, caps, c, req.from);
    MessageOf(h, caps, c, VoteReply(req, resp));
    if req.preVote {
      g := PreVoteReplySimulated(h, caps, c, req, resp);
    } else {
      g := VoteReplyMoves(h, x, s, req, resp);
      CountedId(s.raft, req, resp);
      MoveOnly(h, g, caps, c, req.from, s.(raft := OnVoteResp(s.raft, req, resp)));
    }
  }

  lemma CountedId(n: Node, req: VoteReq, resp: VoteResp)
    requires n.log.Valid()
    ensures OnVoteResp(n, req, resp).id == n.id
  {
  }

  lemma PreVoteReplySimulated(h: History, caps: map<nat, History>, c: Cluster, req: VoteReq, resp: VoteResp)
    returns (g: History)
    requires Related(h, caps, c) && req.from in c.servers && c.servers[req.from].raft.log.Valid()
    ensures Simulates(h, caps, g, caps, StepPreVoteReply(c, req, resp))
  {
    hide C.Inv, C.Extends, ServerOk, Related, Moved, BecomeFollower, Stand, Majority;
    var id := req.from;
    var s, x := c.servers[id], ContextOf(c, caps);
    var n := s.raft;
    ServerOf(h, caps, c, id);
    NotMoved(h, id);
    if req.round in s.rounds && resp.term > n.term {
      g := FollowerMoves(h, x, s, resp.term);
      BecomeFollowerFields(n, resp.term);
      MoveOnly(h, g, caps, c, id, s.(raft := BecomeFollower(n, resp.term)));
    } else if req.round in s.rounds && n.role != Leader && n.term == s.rounds[req.round].term && resp.granted {
      var round := PreRound(n.term, s.rounds[req.round].grants + {req.to});
      var t := s.(rounds := s.rounds[req.round := round]);
      var d := Update(c, id, t);
      Touched(h, x, s, t);
      MoveOnly(h, h, caps, c, id, t);
      g := h;
      if 1 + |round.grants| >= Majority(n) {
        g := StandSimulated(h, caps, d, id);
      }
    } else {
      g := h;
      SendOnly(h, caps, c, id, {});
      assert Send(c, {}) == c;
    }
  }

  lemma CampaignSimulated(h: History, caps: map<nat, History>, c: Cluster, id: Id) returns (g: History)
    requires Related(h, caps, c) && id in c.servers && c.servers[id].raft.role != Leader
    requires c.servers[id].raft.log.Valid()
    ensures Simulates(h, caps, g, caps, StepCampaign(c, id))
  {
    hide C.Inv, C.Extends, ServerOk, Related, Moved, Stand, VoteRequests, MsgOk, CapturesOk, ProposalsOk;
    var x := ContextOf(c, caps);
    var s := c.servers[id].(raft := c.servers[id].raft.(recent := true));
    ServerOf(h, caps, c, id);
    Touched(h, x, c.servers[id], s);
    NotMoved(h, id);
    g := h;
    if !MayCampaign(s.raft) {
      MoveOnly(h, h, caps, c, id, s);
    } else if ClusterSize(s.raft) == 1 {
      MoveOnly(h, h, caps, c, id, s);
      g := StandSimulated(h, caps, Update(c, id, s), id);
    } else {
      var t := s.(rounds := s.rounds[c.calls := PreRound(s.raft.term, {})]);
      Touched(h, x, s, t);
      PreVoteMessages(h, x, s, c.calls, s.raft.term + 1);
      SettleCall(h, caps, c, id, t, VoteRequests(s.raft, true, c.calls, s.raft.term + 1));
    }
  }

  /** A call number is used up. */
  lemma SettleCall(h: History, caps: map<nat, History>, c: Cluster, id: Id, s: Server, ms: set<Msg>)
    requires Related(h, caps, c) && id in c.servers && s.raft.id == id
    requires ServerOk(h, ContextOf(c, caps), s)
    requires forall m | m in ms :: MsgOk(h, ContextOf(c, caps), m)
    ensures Simulates(h, caps, h, caps, Send(Update(c, id, s), ms).(calls := c.calls + 1))
  {
    hide C.Inv, C.Extends, ServerOk, MsgOk, Moved, ProposalsOk, CapturesOk, Related;
    var d := Send(Update(c, id, s), ms).(calls := c.calls + 1);
    LedgersOf(h, caps, c);
    NotMoved(h, id);
    MovedInv(h, h, id);
    assert d.servers.Keys == c.servers.Keys;
    assert ContextOf(d, caps) == ContextOf(c, caps);
    SameContext(ContextOf(c, caps));
    ProposalsGrow(h, h, c.proposals, c.calls, d.calls);
    CapturesGrow(h, h, caps, c.calls, d.calls);
    Settle(h, h, caps, caps, c, d, id);
    Simulated(h, caps, h, d, id);
  }

  lemma SubmitSimulated(h: History, caps: map<nat, History>, c: Cluster, id: Id, command: Command) returns (g: History)
    requires Related(h, caps, c) && id in c.servers && c.servers[id].raft.role == Leader
    requires c.servers[id].raft.log.Valid()
    ensures Simulates(h, caps, g, caps, StepSubmit(c, id, command))
  {
    hide C.Inv, C.Extends, ServerOk, MsgOk, Moved, ProposalsOk, CapturesOk, Related, Propose, ProposalOk;
    var s, x := c.servers[id], ContextOf(c, caps);
    var e := Entry(s.raft.term, s.raft.log.LastIndex() + 1, Normal(command));
    var d := StepSubmit(c, id, command);
    var y := ContextOf(d, caps);
    ServerOf(h, caps, c, id);
    LedgersOf(h, caps, c);
    FreshCall(h, x, s, c.calls);
    assert d.servers.Keys == c.servers.Keys;
    NotMoved(h, id);
    MovedInv(h, h, id);
    ServerFrame(h, h, x, y, s);
    g := ProposeMoves(h, y, s, Normal(command), c.calls);
    MovedInv(h, g, id);
    ProposedId(s.raft, Normal(command), c.calls);
    Parts(h, x, s);
    LinkedLength(h, x.ids, s.raft);
    NewProposal(h, g, c.proposals, c.calls, Proposal(id, e), s.raft);
    CapturesGrow(h, g, caps, c.calls, d.calls);
    Settle(h, g, caps, caps, c, d, id);
    Simulated(h, caps, g, d, id);
  }

  lemma FreshCall(h: History, x: Context, s: Server, calls: nat)
    requires ServerOk(h, x, s) && ProposalsOk(h, x.proposals, calls)
    ensures calls !in x.proposals && calls !in s.raft.sent
  {
  }

  lemma ProposedId(n: Node, payload: Payload, call: nat)
    requires n.log.Valid()
    ensures Propose(n, payload, call).id == n.id
  {
  }

  /** A leader's new entry lies beyond all entries ever proposed in its term. */
  lemma NewProposal(h: History, g: History, proposals: map<nat, Proposal>, calls: nat, p: Proposal, n: Node)
    requires ProposalsOk(h, proposals, calls) && C.Extends(h, g) && ProposalOk(g, p)
    requires n.role == Leader && n.id in h.members && C.Inv(h)
    requires h.members[n.id] == C.Member(n.term, n.votedFor, n.role, n.log.entries, n.commitIndex)
    requires p.entry.term == n.term && p.entry.index == |n.log.entries| + 1
    ensures ProposalsOk(g, proposals[calls := p], calls + 1)
  {
    hide C.Inv, C.Extends;
    C.InvMember(h, n.id);
    R.LeaderOf(h, n.id);
    ProposalsGrow(h, g, proposals, calls, calls + 1);
    forall q | q in proposals
      ensures proposals[q].entry.term == p.entry.term ==> proposals[q].entry.index < p.entry.index
    {
      assert ProposalOk(h, proposals[q]);
    }
  }

  lemma ReadCaptureSimulated(h: History, caps: map<nat, History>, c: Cluster, id: Id)
    requires Related(h, caps, c) && id in c.servers && c.servers[id].raft.role == Leader
    ensures c.calls !in caps
    ensures Simulates(h, caps, h, caps[c.calls := h], StepReadCapture(c, id))
  {
    hide C.Inv, C.Extends, ServerOk, MsgOk, Moved, ProposalsOk, CapturesOk, Related;
    var s, x := c.servers[id], ContextOf(c, caps);
    var caps' := caps[c.calls := h];
    var d := StepReadCapture(c, id);
    ServerOf(h, caps, c, id);
    LedgersOf(h, caps, c);
    NewCapture(h, caps, c.calls);
    assert d.servers.Keys == c.servers.Keys;
    NotMoved(h, id);
    MovedInv(h, h, id);
    ServerFrame(h, h, x, ContextOf(d, caps'), s);
    CaptureOk(h, ContextOf(d, caps'), s, c.calls);
    ProposalsGrow(h, h, c.proposals, c.calls, d.calls);
    Settle(h, h, caps, caps', c, d, id);
  }

  lemma NewCapture(h: History, caps: map<nat, History>, calls: nat)
    requires CapturesOk(h, caps, calls) && C.Inv(h)
    ensures calls !in caps && CapturesOk(h, caps[calls := h], calls + 1)
  {
    hide C.Inv;
  }

  /** A leader's read index is at least its commit index and reaches its own term's first entry. */
  lemma CaptureOk(h: History, x: Context, s: Server, call: nat)
    requires C.Inv(h) && ServerOk(h, x, s) && s.raft.role == Leader && call in x.captures && x.captures[call] == h
    ensures var n := s.raft;
            var readIndex := if n.termStart > n.commitIndex then n.termStart else n.commitIndex;
            ServerOk(h, x, s.(readCalls := s.readCalls[call := ReadCall(n.term, readIndex, ClusterSize(n) == 1, {})]))
  {
    hide C.Inv, ReadOk, ServerOk, SentOk, ApplyOk, WaitersOk, LeaderOk, CandidateOk;
    Parts(h, x, s);
    var n := s.raft;
    var readIndex := if n.termStart > n.commitIndex then n.termStart else n.commitIndex;
    var r := ReadCall(n.term, readIndex, ClusterSize(n) == 1, {});
    var t := s.(readCalls := s.readCalls[call := r]);
    CaptureCall(h, x, n, call, r);
    ApplySame(x.proposals, s, t);
    Assemble(h, x, t);
  }

  lemma CaptureCall(h: History, x: Context, n: Node, call: nat, r: ReadCall)
    requires C.Inv(h) && Linked(h, x.ids, n) && LeaderOk(h, x.ids, n) && n.role == Leader
    requires call in x.captures && x.captures[call] == h
    requires r.term == n.term && r.readIndex >= n.termStart && r.readIndex >= n.commitIndex && r.acks == {}
    ensures ReadOk(x, n.id, call, r)
  {
    hide C.Inv, C.MemberOk;
    InLedger(h, x, n);
    R.LeaderOf(h, n.id);
  }

  lemma ReadsLess(h: History, x: Context, s: Server, t: Server)
    requires ServerOk(h, x, s) && t == s.(readCalls := t.readCalls)
    requires forall k | k in t.readCalls ::
               k in s.readCalls && t.readCalls[k] == s.readCalls[k].(confirming := t.readCalls[k].confirming)
    ensures ServerOk(h, x, t)
  {
    hide NotElector, ServerOk, SentOk, ApplyOk, WaitersOk;
    Parts(h, x, s);
    ApplySame(x.proposals, s, t);
    forall k | k in t.readCalls
      ensures ReadOk(x, t.raft.id, k, t.readCalls[k])
    {
      assert ReadOk(x, s.raft.id, k, s.readCalls[k]);
    }
    Assemble(h, x, t);
  }

  lemma ReadConfirmSimulated(h: History, caps: map<nat, History>, c: Cluster, id: Id, call: nat)
    requires Related(h, caps, c) && id in c.servers && call in c.servers[id].readCalls
    ensures Simulates(h, caps, h, caps, StepReadConfirm(c, id, call))
  {
    hide C.Inv, C.Extends, ServerOk, AppendOk, Moved, Related, BuildProbe;
    var s, x := c.servers[id], ContextOf(c, caps);
    var n, r := s.raft, s.readCalls[call];
    ServerOf(h, caps, c, id);
    NotMoved(h, id);
    if n.role != Leader || n.term != r.term {
      var t := s.(readCalls := s.readCalls - {call});
      ReadsLess(h, x, s, t);
      MoveOnly(h, h, caps, c, id, t);
    } else {
      var t := s.(readCalls := s.readCalls[call := r.(confirming := true)]);
      ReadsLess(h, x, s, t);
      forall p | p in Peers(n)
        ensures AppendOk(h, x, BuildProbe(n, p, call, r.term))
      {
        ProbesOk(h, x, s, call, r, p);
      }
      SettleSame(h, h, caps, c, id, t, set p | p in Peers(n) :: AppendRequest(BuildProbe(n, p, call, r.term)));
      Simulated(h, caps, h, StepReadConfirm(c, id, call), id);
    }
  }

  lemma ReadReturnSimulated(h: History, caps: map<nat, History>, c: Cluster, id: Id, call: nat)
    requires Related(h, caps, c) && id in c.servers && call in c.servers[id].readCalls
    ensures Simulates(h, caps, h, caps, StepReadReturn(c, id, call))
  {
    hide C.Inv, C.Extends, ServerOk, Moved, Related;
    var s := c.servers[id];
    var t := s.(readCalls := s.readCalls - {call});
    ServerOf(h, caps, c, id);
    NotMoved(h, id);
    ReadsLess(h, ContextOf(c, caps), s, t);
    MoveOnly(h, h, caps, c, id, t);
  }

  /** Every step of the cluster is matched by the history. */
  lemma StepSimulated(h: History, caps: map<nat, History>, c: Cluster, a: Action)
    returns (g: History, caps': map<nat, History>)
    requires Related(h, caps, c) && Sound(c) && Enabled(c, a)
    ensures Simulates(h, caps, g, caps', Step(c, a))
    ensures a.ReadCapture? ==> c.calls in caps' && caps'[c.calls] == h
  {
    hide Related, Sound, StepExpire, StepCampaign, StepSubmit, StepAbandon, StepReadCapture, StepReadConfirm, StepReadReturn, StepCrash,
         StepVoteRequest, StepVoteReply, StepReplicate, StepAppendRequest, StepAppendReply, Simulates, MayReturn;
    g, caps' := h, caps;
    SoundNow(h, caps, c);
    match a
    case Expire(id) => ExpireSimulated(h, caps, c, id);
    case Campaign(id) => g := CampaignSimulated(h, caps, c, id);
    case ReceiveVoteRequest(req) => g := VoteRequestSimulated(h, caps, c, req);
    case ReceiveVoteReply(req, resp) => g := VoteReplySimulated(h, caps, c, req, resp);
    case Replicate(id, peer) => ReplicateSimulated(h, caps, c, id, peer);
    case ReceiveAppendRequest(req) => g := AppendRequestSimulated(h, caps, c, req);
    case ReceiveAppendReply(req, resp) => g := AppendReplySimulated(h, caps, c, req, resp);
    case Submit(id, command) => g := SubmitSimulated(h, caps, c, id, command);
    case Abandon(id, index) => AbandonSimulated(h, caps, c, id, index);
    case ReadCapture(id) => caps' := caps[c.calls := h]; ReadCaptureSimulated(h, caps, c, id);
    case ReadConfirm(id, call) => ReadConfirmSimulated(h, caps, c, id, call);
    case ReadReturn(id, call) => ReadReturnSimulated(h, caps, c, id, call);
    case ApplyTake(id) => TakeSimulated(h, caps, c, id);
    case ApplyRun(id) => RunsSimulated(h, caps, c, id);
    case ApplyFinish(id) => FinishSimulated(h, caps, c, id);
    case Crash(id, midway) => g := CrashSimulated(h, caps, c, id, midway);
  }

  lemma SoundNow(h: History, caps: map<nat, History>, c: Cluster)
    requires Related(h, caps, c)
    ensures Sound(c)
    ensures forall id | id in c.servers :: c.servers[id].raft.log.Valid()
    ensures forall req | AppendRequest(req) in c.net :: WellFormed(req)
  {
    hide C.Inv, C.Extends;
    forall m | m in c.net && m.AppendRequest?
      ensures WellFormed(m.areq)
    {
      MessageOf(h, caps, c, m);
    }
    forall id | id in c.servers
      ensures c.servers[id].raft.log.Valid()
    {
      ServerOf(h, caps, c, id);
    }
  }

  /** The history of a cluster that has just started. */
  function Beginning(c: Cluster): History {
    C.History(map id | id in c.servers :: C.Member(0, None, Follower, [], 0), map[], map[], map[])
  }

  lemma InitRelated(c: Cluster)
    requires Init(c)
    ensures Related(Beginning(c), map[], c)
  {
    hide C.Inv, ServerOk, Newborn;
    var h := Beginning(c);
    BeginningInv(h);
    forall id | id in c.servers
      ensures ServerOk(h, ContextOf(c, map[]), c.servers[id])
    {
      NewbornOk(h, ContextOf(c, map[]), c.servers[id]);
    }
  }

  lemma BeginningInv(h: History)
    requires h.votes == map[] && h.reigns == map[] && h.acks == map[]
    requires forall id | id in h.members :: h.members[id] == C.Member(0, None, Follower, [], 0)
    ensures C.Inv(h)
  {
  }

  lemma NewbornOk(h: History, x: Context, s: Server)
    requires h.members.Keys == x.ids && s.raft.id in x.ids && h.members[s.raft.id] == C.Member(0, None, Follower, [], 0)
    requires Newborn(s, x.ids)
    ensures ServerOk(h, x, s)
  {
  }

  /** A run with the history kept beside it. */
  ghost predicate Follows(r: Run, hs: seq<History>, caps: seq<map<nat, History>>) {
    && |hs| == |caps| == |r.states| == |r.actions| + 1
    && (forall i | 0 <= i < |r.states| :: Related(hs[i], caps[i], r.states[i]))
    && (forall i, j | 0 <= i <= j < |r.states| :: Later(hs[i], caps[i], hs[j], caps[j]))
    && (forall i | 0 <= i < |r.actions| && r.actions[i].ReadCapture? ::
          r.states[i].calls in caps[i + 1] && caps[i + 1][r.states[i].calls] == hs[i])
  }

  ghost predicate Later(h: History, caps: map<nat, History>, g: History, caps': map<nat, History>) {
    C.Extends(h, g) && Captured(caps, caps')
  }

  function Prefix(r: Run, n: nat): Run
    requires n < |r.states| == |r.actions| + 1
  {
    Run(r.states[..n + 1], r.actions[..n])
  }

  /** Every run has such a history. */
  lemma {:induction false} RunSimulated(r: Run) returns (hs: seq<History>, caps: seq<map<nat, History>>)
    requires IsRun(r)
    ensures |hs| == |caps| == |r.states| && Follows(r, hs, caps)
    decreases |r.actions|
  {
    hide Related, IsStep, Later, Init;
    var n := |r.actions|;
    if n == 0 {
      InitRelated(r.states[0]);
      hs, caps := [Beginning(r.states[0])], [map[]];
      LaterSame(hs[0], caps[0]);
    } else {
      var p := Prefix(r, n - 1);
      PrefixRuns(r, n - 1);
      hs, caps := RunSimulated(p);
      assert StepAt(r, n - 1);
      var g, cs := NextSimulated(hs[n - 1], caps[n - 1], r.states[n - 1], r.actions[n - 1], r.states[n]);
      forall i | 0 <= i < n
        ensures Later(hs[i], caps[i], g, cs)
      {
        LaterTwice(hs[i], caps[i], hs[n - 1], caps[n - 1], g, cs);
      }
      LaterSame(g, cs);
      FollowsLonger(r, hs, caps, g, cs);
      hs, caps := hs + [g], caps + [cs];
    }
  }

  lemma PrefixRuns(r: Run, n: nat)
    requires IsRun(r) && n <= |r.actions|
    ensures IsRun(Prefix(r, n))
  {
    hide IsStep, Init;
    var p := Prefix(r, n);
    forall i | 0 <= i < |p.actions|
      ensures StepAt(p, i)
    {
      assert StepAt(r, i);
    }
  }

  lemma LaterSame(h: History, caps: map<nat, History>)
    ensures Later(h, caps, h, caps)
  {
  }

  lemma LaterTwice(h: History, a: map<nat, History>, g: History, b: map<nat, History>, f: History, c: map<nat, History>)
    requires Later(h, a, g, b) && Later(g, b, f, c)
    ensures Later(h, a, f, c)
  {
  }

  lemma NextSimulated(h: History, caps: map<nat, History>, c: Cluster, a: Action, d: Cluster)
    returns (g: History, caps': map<nat, History>)
    requires Related(h, caps, c) && IsStep(c, a, d)
    ensures Related(g, caps', d) && Later(h, caps, g, caps')
    ensures a.ReadCapture? ==> c.calls in caps' && caps'[c.calls] == h
  {
    hide Related, Sound, Enabled, Step, C.Extends;
    g, caps' := StepSimulated(h, caps, c, a);
  }

  lemma FollowsLonger(r: Run, hs: seq<History>, caps: seq<map<nat, History>>, g: History, cs: map<nat, History>)
    requires |r.states| == |r.actions| + 1 && |r.actions| > 0
    requires Follows(Prefix(r, |r.actions| - 1), hs, caps)
    requires Related(g, cs, r.states[|r.actions|])
    requires forall i | 0 <= i < |hs| :: Later(hs[i], caps[i], g, cs)
    requires Later(g, cs, g, cs)
    requires r.actions[|r.actions| - 1].ReadCapture? ==>
               r.states[|r.actions| - 1].calls in cs && cs[r.states[|r.actions| - 1].calls] == hs[|r.actions| - 1]
    ensures Follows(r, hs + [g], caps + [cs])
  {
    hide Related, Later;
    var n, hs', caps' := |r.actions|, hs + [g], caps + [cs];
    var p := Prefix(r, n - 1);
    forall i | 0 <= i < |r.states|
      ensures Related(hs'[i], caps'[i], r.states[i])
    {
      if i < n { assert Related(hs[i], caps[i], p.states[i]); }
    }
    forall i, j | 0 <= i <= j < |r.states|
      ensures Later(hs'[i], caps'[i], hs'[j], caps'[j])
    {
      if j < n { assert Later(hs[i], caps[i], hs[j], caps[j]); }
    }
    forall i | 0 <= i < |r.actions| && r.actions[i].ReadCapture?
      ensures r.states[i].calls in caps'[i + 1] && caps'[i + 1][r.states[i].calls] == hs'[i]
    {
      if i < n - 1 { assert p.actions[i].ReadCapture?; assert p.states[i] == r.states[i]; }
    }
  }

  /** The guard Sound of the step relation never stands in the way. */
  lemma SoundForever(r: Run)
    requires IsRun(r)
    ensures forall i | 0 <= i < |r.states| :: Sound(r.states[i])
  {
    hide IsRun, Related, Sound;
    var hs, caps := RunSimulated(r);
    forall i | 0 <= i < |r.states|
      ensures Sound(r.states[i])
    {
      SoundNow(hs[i], caps[i], r.states[i]);
    }
  }
}

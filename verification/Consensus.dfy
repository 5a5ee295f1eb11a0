/**
  The protocol argument, free of messages and handlers.

  A History records what has happened so far: who voted for whom with which log,
  which leader reigned in which term and with which log, and how much of a
  leader's log each node has acknowledged. Small actions extend the history, and
  every handler of the program is a composition of such actions (module
  Simulation). The invariant kept by the actions contains log matching, and
  implies leader completeness and state-machine safety (extended Raft paper,
  sections 5.3 and 5.4).
 */
module Consensus {
  import opened Wrappers
  import opened RaftTypes

  /** A node id and a term. */
  datatype Ballot = Ballot(id: Id, term: nat)

  /** What the argument needs to know of a node. */
  datatype Member = Member(term: nat, votedFor: Option<Id>, role: Role, log: seq<Entry>, commit: nat)

  /** A vote for `candidate`, with the voter's log when it voted. */
  datatype Vote = Vote(candidate: Id, log: seq<Entry>)

  /**
    A leader's reign: the quorum that elected it, its log on election (`base`),
    its log when last seen leading, and the commit index it reached while leading.
   */
  datatype Reign = Reign(leader: Id, quorum: set<Id>, base: seq<Entry>, log: seq<Entry>, commit: nat)

  datatype History = History(
    members: map<Id, Member>,
    votes: map<Ballot, Vote>,
    reigns: map<nat, Reign>,
    acks: map<Ballot, nat>)

  // ---- Invariant ----

  /** Every prefix of `log` that ends in an entry of term t is a prefix of the log of the leader of t. */
  ghost predicate LogOk(reigns: map<nat, Reign>, log: seq<Entry>) {
    forall k | 0 <= k < |log| ::
      && log[k].index == k + 1
      && log[k].term in reigns
      && Agree(log, reigns[log[k].term].log, k + 1)
  }

  ghost predicate TermsBelow(log: seq<Entry>, bound: nat) {
    forall k | 0 <= k < |log| :: log[k].term < bound
  }

  /** A quorum has acknowledged the first `idx` entries of the leader of `term`, the last of them of that term. */
  ghost predicate Certified(h: History, term: nat, idx: nat) {
    && term in h.reigns
    && 0 < idx <= |h.reigns[term].log|
    && h.reigns[term].log[idx - 1].term == term
    && exists q :: AckedBy(h, q, term, idx)
  }

  ghost predicate AckedBy(h: History, q: set<Id>, term: nat, idx: nat) {
    IsQuorum(q, h.members.Keys) && forall p | p in q :: Ballot(p, term) in h.acks && h.acks[Ballot(p, term)] >= idx
  }

  /** The first `k` entries of the leader of `term` are certified, by it or by an earlier leader. */
  ghost predicate Safe(h: History, term: nat, k: nat) {
    && term in h.reigns
    && k <= |h.reigns[term].log|
    && (k == 0 || exists t0: nat, idx: nat ::
          t0 <= term && Certified(h, t0, idx) && k <= idx && Agree(h.reigns[t0].log, h.reigns[term].log, k))
  }

  /** `log` holds the first `idx` entries of the leader of `term`, or a later leader, up to `hi`, lacked them. */
  ghost predicate Kept(reigns: map<nat, Reign>, term: nat, idx: nat, log: seq<Entry>, hi: nat)
    requires term in reigns && idx <= |reigns[term].log|
  {
    || Agree(log, reigns[term].log, idx)
    || exists t | t in reigns && term < t <= hi :: !Agree(reigns[t].base, reigns[term].log, idx)
  }

  ghost predicate KeptAll(reigns: map<nat, Reign>, term: nat, upto: nat, log: seq<Entry>, hi: nat)
    requires term in reigns && upto <= |reigns[term].log|
  {
    forall idx | 0 <= idx <= upto :: Kept(reigns, term, idx, log, hi)
  }

  /** A leader's log is its log on election followed by entries of its own term, at least the no-op. */
  ghost predicate ReignShape(reigns: map<nat, Reign>, t: nat)
    requires t in reigns
  {
    var r := reigns[t];
    && r.base < r.log
    && TermsBelow(r.base, t)
    && (forall k | |r.base| <= k < |r.log| :: r.log[k].term == t)
    && LogOk(reigns, r.log)
  }

  ghost predicate Shaped(reigns: map<nat, Reign>) {
    forall t | t in reigns :: ReignShape(reigns, t)
  }

  ghost predicate ReignOk(h: History, t: nat)
    requires t in h.reigns
  {
    var r := h.reigns[t];
    && t > 0
    && r.leader in r.quorum
    && IsQuorum(r.quorum, h.members.Keys)
    && (forall q | q in r.quorum :: Ballot(q, t) in h.votes && h.votes[Ballot(q, t)].candidate == r.leader)
    && r.base == h.votes[Ballot(r.leader, t)].log
    && Safe(h, t, r.commit)
    && h.members[r.leader].term >= t
    && Ballot(r.leader, t) in h.acks && h.acks[Ballot(r.leader, t)] == |r.log|
  }

  ghost predicate VoteOk(h: History, b: Ballot)
    requires b in h.votes
  {
    var v := h.votes[b];
    && b.id in h.members
    && b.term <= h.members[b.id].term
    && TermsBelow(v.log, b.term)
    && LogOk(h.reigns, v.log)
    && v.candidate in h.members
    && Ballot(v.candidate, b.term) in h.votes
    && h.votes[Ballot(v.candidate, b.term)].candidate == v.candidate
    && var c := h.votes[Ballot(v.candidate, b.term)].log;
       UpToDate(LastTermOf(c), |c|, LastTermOf(v.log), |v.log|)
  }

  /** A node holds what it has acknowledged, unless a later leader it may have heard lacked it. */
  ghost predicate AckOk(h: History, a: Ballot)
    requires a in h.acks
  {
    && a.id in h.members
    && a.term <= h.members[a.id].term
    && a.term in h.reigns
    && h.acks[a] <= |h.reigns[a.term].log|
    && KeptAll(h.reigns, a.term, h.acks[a], h.members[a.id].log, h.members[a.id].term)
  }

  /** Likewise for the log a node had when it later cast a vote that elected, or may yet elect, a leader. */
  ghost predicate AckVoteOk(h: History, a: Ballot, b: Ballot)
    requires a in h.acks && b in h.votes
  {
    a.id == b.id && a.term < b.term && (b.term in h.reigns ==> b.id in h.reigns[b.term].quorum) ==>
      && a.term in h.reigns
      && h.acks[a] <= |h.reigns[a.term].log|
      && KeptAll(h.reigns, a.term, h.acks[a], h.votes[b].log, b.term - 1)
  }

  ghost predicate MemberOk(h: History, n: Id)
    requires n in h.members
  {
    var m := h.members[n];
    && LogOk(h.reigns, m.log)
    && TermsBelow(m.log, m.term + 1)
    && (m.votedFor.Some? <==> Ballot(n, m.term) in h.votes)
    && (m.votedFor.Some? ==> h.votes[Ballot(n, m.term)].candidate == m.votedFor.value)
    && (m.role == Candidate ==>
          && m.term > 0
          && m.votedFor == Some(n)
          && h.votes[Ballot(n, m.term)].log == m.log
          && (m.term in h.reigns ==> h.reigns[m.term].leader != n))
    && (m.role == Leader ==>
          && m.term in h.reigns
          && h.reigns[m.term].leader == n
          && h.reigns[m.term].log == m.log
          && h.reigns[m.term].commit == m.commit)
    && m.commit <= |m.log|
    && CommitOk(h, m)
  }

  /** What a node regards as committed is what some leader, not later than its term, had committed. */
  ghost predicate CommitOk(h: History, m: Member) {
    m.commit == 0 || exists t ::
      t in h.reigns && t <= m.term && m.commit <= h.reigns[t].commit && Agree(m.log, h.reigns[t].log, m.commit)
  }

  ghost predicate MembersOk(h: History) {
    forall n | n in h.members :: MemberOk(h, n)
  }

  ghost predicate ReignsOk(h: History) {
    forall t | t in h.reigns :: ReignOk(h, t)
  }

  ghost predicate VotesOk(h: History) {
    forall b | b in h.votes :: VoteOk(h, b)
  }

  ghost predicate AcksOk(h: History) {
    forall a | a in h.acks :: AckOk(h, a)
  }

  ghost predicate AckVotesOk(h: History) {
    forall a, b | a in h.acks && b in h.votes :: AckVoteOk(h, a, b)
  }

  ghost predicate Inv(h: History) {
    MembersOk(h) && Shaped(h.reigns) && ReignsOk(h) && VotesOk(h) && AcksOk(h) && AckVotesOk(h)
  }

  // ---- Growth ----

  ghost predicate ReignsGrow(r: map<nat, Reign>, s: map<nat, Reign>) {
    forall t | t in r ::
      && t in s
      && s[t].leader == r[t].leader
      && s[t].quorum == r[t].quorum
      && s[t].base == r[t].base
      && r[t].log <= s[t].log
      && r[t].commit <= s[t].commit
  }

  /** What never happens again is undone: terms, votes, acknowledgements and reigns only grow. */
  ghost predicate Extends(h: History, g: History) {
    && g.members.Keys == h.members.Keys
    && (forall n | n in h.members :: h.members[n].term <= g.members[n].term)
    && ReignsGrow(h.reigns, g.reigns)
    && (forall b | b in h.votes :: b in g.votes && g.votes[b] == h.votes[b])
    && (forall a | a in h.acks :: a in g.acks && h.acks[a] <= g.acks[a])
  }

  lemma LogOkGrows(r: map<nat, Reign>, s: map<nat, Reign>, log: seq<Entry>)
    requires LogOk(r, log) && ReignsGrow(r, s)
    ensures LogOk(s, log)
  {
  }

  lemma CertifiedGrows(h: History, g: History, term: nat, idx: nat)
    requires Certified(h, term, idx) && Extends(h, g)
    ensures Certified(g, term, idx)
  {
    var q :| AckedBy(h, q, term, idx);
    assert AckedBy(g, q, term, idx);
  }

  lemma SafeGrows(h: History, g: History, term: nat, k: nat)
    requires Safe(h, term, k) && Extends(h, g)
    ensures Safe(g, term, k)
  {
    if k != 0 {
      var t0: nat, idx: nat :|
        t0 <= term && Certified(h, t0, idx) && k <= idx && Agree(h.reigns[t0].log, h.reigns[term].log, k);
      CertifiedGrows(h, g, t0, idx);
      assert g.reigns[t0].log[..k] == h.reigns[t0].log[..k];
      assert g.reigns[term].log[..k] == h.reigns[term].log[..k];
    }
  }

  lemma KeptGrows(r: map<nat, Reign>, s: map<nat, Reign>, term: nat, upto: nat, log: seq<Entry>, hi: nat, hi': nat)
    requires term in r && upto <= |r[term].log| && ReignsGrow(r, s) && hi <= hi'
    requires KeptAll(r, term, upto, log, hi)
    ensures KeptAll(s, term, upto, log, hi')
  {
    forall idx | 0 <= idx <= upto
      ensures Kept(s, term, idx, log, hi')
    {
      assert Kept(r, term, idx, log, hi);
      assert s[term].log[..idx] == r[term].log[..idx];
      if !Agree(log, r[term].log, idx) {
        var t :| t in r && term < t <= hi && !Agree(r[t].base, r[term].log, idx);
        assert t in s && !Agree(s[t].base, s[term].log, idx);
      }
    }
  }

  // ---- What an action leaves alone stays in order ----

  lemma MemberFrame(h: History, g: History, n: Id)
    requires Extends(h, g) && n in h.members && MemberOk(h, n) && g.members[n] == h.members[n]
    requires Ballot(n, h.members[n].term) in g.votes ==> Ballot(n, h.members[n].term) in h.votes
    requires h.members[n].role == Leader ==> g.reigns[h.members[n].term] == h.reigns[h.members[n].term]
    requires h.members[n].role == Candidate && h.members[n].term in g.reigns ==>
               h.members[n].term in h.reigns || g.reigns[h.members[n].term].leader != n
    ensures MemberOk(g, n)
  {
    LogOkGrows(h.reigns, g.reigns, h.members[n].log);
    CommitOkGrows(h, g, h.members[n]);
  }

  lemma CommitOkGrows(h: History, g: History, m: Member)
    requires Extends(h, g) && CommitOk(h, m)
    ensures CommitOk(g, m)
  {
  }

  lemma ReignFrame(h: History, g: History, t: nat)
    requires Extends(h, g) && t in h.reigns && ReignOk(h, t) && g.reigns[t] == h.reigns[t]
    requires g.acks[Ballot(h.reigns[t].leader, t)] == h.acks[Ballot(h.reigns[t].leader, t)]
    ensures ReignOk(g, t)
  {
    SafeGrows(h, g, t, h.reigns[t].commit);
  }

  lemma ShapeFrame(r: map<nat, Reign>, s: map<nat, Reign>, t: nat)
    requires ReignsGrow(r, s) && t in r && ReignShape(r, t) && s[t] == r[t]
    ensures ReignShape(s, t)
  {
  }

  lemma VoteFrame(h: History, g: History, b: Ballot)
    requires Extends(h, g) && b in h.votes && VoteOk(h, b)
    ensures VoteOk(g, b)
  {
  }

  lemma AckFrame(h: History, g: History, a: Ballot)
    requires Extends(h, g) && a in h.acks && AckOk(h, a) && g.acks[a] == h.acks[a]
    requires g.members[a.id].log == h.members[a.id].log
    ensures AckOk(g, a)
  {
    KeptGrows(h.reigns, g.reigns, a.term, h.acks[a], h.members[a.id].log, h.members[a.id].term, g.members[a.id].term);
  }

  lemma AckVoteFrame(h: History, g: History, a: Ballot, b: Ballot)
    requires Extends(h, g) && a in h.acks && b in h.votes && AckVoteOk(h, a, b) && g.acks[a] == h.acks[a]
    requires AckOk(h, a)
    ensures AckVoteOk(g, a, b)
  {
    if a.id == b.id && a.term < b.term && (b.term in g.reigns ==> b.id in g.reigns[b.term].quorum) {
      KeptGrows(h.reigns, g.reigns, a.term, h.acks[a], h.votes[b].log, b.term - 1, b.term - 1);
    }
  }

  // ---- Actions ----

  /** A node adopts a later term. */
  function NewTerm(h: History, n: Id, t: nat): History
    requires n in h.members && h.members[n].term < t
  {
    h.(members := h.members[n := h.members[n].(term := t, votedFor := None, role := Follower)])
  }

  /** A node gives up its candidacy or its reign. */
  function StepDown(h: History, n: Id): History
    requires n in h.members
  {
    h.(members := h.members[n := h.members[n].(role := Follower)])
  }

  /** A node restarts: it follows again and has forgotten part of what it knew to be committed. */
  function Restart(h: History, n: Id, k: nat): History
    requires n in h.members && k <= h.members[n].commit
  {
    h.(members := h.members[n := h.members[n].(role := Follower, commit := k)])
  }

  /** A node stands for election in the next term and votes for itself. */
  function Stand(h: History, n: Id): History
    requires n in h.members
  {
    var m := h.members[n];
    h.(members := h.members[n := m.(term := m.term + 1, votedFor := Some(n), role := Candidate)],
       votes := h.votes[Ballot(n, m.term + 1) := Vote(n, m.log)])
  }

  /** A node votes for a candidate of its own term. */
  function Grant(h: History, n: Id, c: Id): History
    requires n in h.members
  {
    var m := h.members[n];
    h.(members := h.members[n := m.(votedFor := Some(c))],
       votes := h.votes[Ballot(n, m.term) := Vote(c, m.log)])
  }

  ghost predicate MayGrant(h: History, n: Id, c: Id) {
    && n in h.members && c in h.members
    && var m := h.members[n];
    && m.votedFor == None
    && Ballot(c, m.term) in h.votes
    && h.votes[Ballot(c, m.term)].candidate == c
    && var l := h.votes[Ballot(c, m.term)].log;
       UpToDate(LastTermOf(l), |l|, LastTermOf(m.log), |m.log|)
  }

  /** A candidate with the votes of `q` starts to reign with the entry `e`. */
  function Win(h: History, n: Id, q: set<Id>, e: Entry): History
    requires n in h.members
  {
    var m := h.members[n];
    h.(members := h.members[n := m.(role := Leader, log := m.log + [e])],
       reigns := h.reigns[m.term := Reign(n, q, m.log, m.log + [e], m.commit)],
       acks := h.acks[Ballot(n, m.term) := |m.log| + 1])
  }

  ghost predicate MayWin(h: History, n: Id, q: set<Id>, e: Entry) {
    && n in h.members
    && var m := h.members[n];
    && m.role == Candidate
    && n in q && IsQuorum(q, h.members.Keys)
    && (forall v | v in q :: Ballot(v, m.term) in h.votes && h.votes[Ballot(v, m.term)].candidate == n)
    && e.term == m.term && e.index == |m.log| + 1
  }

  /** A leader appends to its own log. */
  function Lead(h: History, n: Id, e: Entry): History
    requires n in h.members && h.members[n].term in h.reigns
  {
    var m := h.members[n];
    h.(members := h.members[n := m.(log := m.log + [e])],
       reigns := h.reigns[m.term := h.reigns[m.term].(log := m.log + [e])],
       acks := h.acks[Ballot(n, m.term) := |m.log| + 1])
  }

  ghost predicate MayLead(h: History, n: Id, e: Entry) {
    && n in h.members && h.members[n].role == Leader
    && h.members[n].term in h.reigns
    && e.term == h.members[n].term && e.index == |h.members[n].log| + 1
  }

  /** A follower's log now agrees with its leader's up to `upto`; it is cut only where it does not agree further. */
  function Follow(h: History, n: Id, log: seq<Entry>, upto: nat): History
    requires n in h.members
  {
    var m := h.members[n];
    var b := Ballot(n, m.term);
    h.(members := h.members[n := m.(log := log)],
       acks := h.acks[b := if b in h.acks && h.acks[b] > upto then h.acks[b] else upto])
  }

  ghost predicate MayFollow(h: History, n: Id, log: seq<Entry>, upto: nat) {
    && n in h.members && h.members[n].role == Follower
    && var m := h.members[n];
    && m.term in h.reigns && h.reigns[m.term].leader != n
    && Agree(log, h.reigns[m.term].log, upto)
    && (log == m.log || (|log| == upto && !Agree(m.log, h.reigns[m.term].log, upto + 1)))
  }

  /** A leader commits an entry of its own term that a quorum has acknowledged. */
  function CommitLeader(h: History, n: Id, idx: nat): History
    requires n in h.members && h.members[n].term in h.reigns
  {
    var m := h.members[n];
    h.(members := h.members[n := m.(commit := idx)],
       reigns := h.reigns[m.term := h.reigns[m.term].(commit := idx)])
  }

  ghost predicate MayCommitLeader(h: History, n: Id, idx: nat, q: set<Id>) {
    && n in h.members && h.members[n].role == Leader
    && var m := h.members[n];
    && m.commit < idx <= |m.log|
    && m.log[idx - 1].term == m.term
    && AckedBy(h, q, m.term, idx)
  }

  /** A follower learns its leader's commit index. */
  function CommitFollower(h: History, n: Id, idx: nat): History
    requires n in h.members
  {
    h.(members := h.members[n := h.members[n].(commit := idx)])
  }

  ghost predicate MayCommitFollower(h: History, n: Id, idx: nat) {
    && n in h.members && h.members[n].role == Follower
    && var m := h.members[n];
    && m.term in h.reigns
    && m.commit <= idx <= h.reigns[m.term].commit
    && Agree(m.log, h.reigns[m.term].log, idx)
  }

  // ---- Leader completeness, as a consequence of the invariant ----

  /** Terms never decrease along a log. */
  lemma TermsGrow(reigns: map<nat, Reign>, log: seq<Entry>, i: nat, j: nat)
    requires Shaped(reigns) && LogOk(reigns, log) && i <= j < |log|
    ensures log[i].term <= log[j].term
  {
  }

  /** A log whose last entry is of term `u` reaches into the reign of `u`. */
  lemma ReachesReign(reigns: map<nat, Reign>, log: seq<Entry>, u: nat)
    requires Shaped(reigns) && LogOk(reigns, log) && |log| > 0 && LastTermOf(log) == u
    ensures u in reigns && log <= reigns[u].log && |reigns[u].base| < |log|
  {
  }

  lemma AgreeShift(a: seq<Entry>, b: seq<Entry>, c: seq<Entry>, n: nat)
    requires Agree(a, b, n) && (b <= c || c <= b) && n <= |c|
    ensures Agree(a, c, n)
  {
  }

  /** A candidate as up to date as a log that holds a prefix of the leader of `t` holds that prefix too. */
  lemma UpToDateKeeps(reigns: map<nat, Reign>, t: nat, idx: nat, t': nat, mine: seq<Entry>, theirs: seq<Entry>)
    requires Shaped(reigns) && t in reigns && 0 < idx <= |reigns[t].log| && reigns[t].log[idx - 1].term == t
    requires LogOk(reigns, mine) && LogOk(reigns, theirs) && TermsBelow(mine, t')
    requires Agree(theirs, reigns[t].log, idx)
    requires UpToDate(LastTermOf(mine), |mine|, LastTermOf(theirs), |theirs|)
    requires forall u | u in reigns && t < u < t' :: Agree(reigns[u].base, reigns[t].log, idx)
    ensures Agree(mine, reigns[t].log, idx)
  {
    var u := LastTermOf(mine);
    assert theirs[idx - 1] == theirs[..idx][idx - 1] == reigns[t].log[idx - 1];
    TermsGrow(reigns, theirs, idx - 1, |theirs| - 1);
    ReachesReign(reigns, mine, u);
    ReachesReign(reigns, theirs, LastTermOf(theirs));
    if u == LastTermOf(theirs) {
      AgreeShift(reigns[t].log, theirs, reigns[u].log, idx);
      AgreeShift(reigns[t].log, reigns[u].log, mine, idx);
    } else {
      assert Agree(reigns[u].base, reigns[t].log, idx);
      assert ReignShape(reigns, u);
      AgreeShift(reigns[t].log, reigns[u].base, reigns[u].log, idx);
      AgreeShift(reigns[t].log, reigns[u].log, mine, idx);
    }
  }

  /** Leader completeness: what a quorum has acknowledged in term t is in the log of every later leader on election. */
  lemma {:induction false} LeaderCompleteness(h: History, t: nat, idx: nat, t': nat)
    requires Inv(h) && Certified(h, t, idx) && t' in h.reigns && t < t'
    ensures Agree(h.reigns[t'].base, h.reigns[t].log, idx)
    decreases t'
  {
    forall u | u in h.reigns && t < u < t'
      ensures Agree(h.reigns[u].base, h.reigns[t].log, idx)
    {
      LeaderCompleteness(h, t, idx, u);
    }
    var q :| AckedBy(h, q, t, idx);
    assert ReignOk(h, t');
    var v := QuorumsMeet(q, h.reigns[t'].quorum, h.members.Keys);
    VoterKept(h, t, idx, t', v);
  }

  lemma VoterKept(h: History, t: nat, idx: nat, t': nat, v: Id)
    requires Shaped(h.reigns) && t in h.reigns && t' in h.reigns && t < t' && ReignOk(h, t')
    requires 0 < idx <= |h.reigns[t].log| && h.reigns[t].log[idx - 1].term == t
    requires ReignShape(h.reigns, t')
    requires v in h.reigns[t'].quorum && Ballot(v, t) in h.acks && h.acks[Ballot(v, t)] >= idx
    requires AckVoteOk(h, Ballot(v, t), Ballot(v, t')) && VoteOk(h, Ballot(v, t'))
    requires forall u | u in h.reigns && t < u < t' :: Agree(h.reigns[u].base, h.reigns[t].log, idx)
    ensures Agree(h.reigns[t'].base, h.reigns[t].log, idx)
  {
    var r, b := h.reigns[t'], Ballot(v, t');
    assert Kept(h.reigns, t, idx, h.votes[b].log, t' - 1);
    assert LogOk(h.reigns, r.base);
    UpToDateKeeps(h.reigns, t, idx, t', r.base, h.votes[b].log);
  }

  // ---- Every action keeps the invariant ----

  lemma MembersKeep(h: History, g: History, n: Id)
    requires MembersOk(h) && Extends(h, g) && n in h.members
    requires forall m | m in h.members && m != n :: g.members[m] == h.members[m]
    requires forall b | b in g.votes && b.id != n :: b in h.votes
    requires forall t | t in g.reigns :: if t in h.reigns then h.reigns[t].leader != n ==> g.reigns[t] == h.reigns[t]
                                         else g.reigns[t].leader == n
    requires MemberOk(g, n)
    ensures MembersOk(g)
  {
    forall m | m in g.members
      ensures MemberOk(g, m)
    {
      if m != n {
        assert MemberOk(h, m);
        MemberFrame(h, g, m);
      }
    }
  }

  /** All reigns but that of term `x` are as they were. */
  lemma ReignsKeep(h: History, g: History, x: nat)
    requires ReignsOk(h) && Shaped(h.reigns) && Extends(h, g)
    requires forall t | t in g.reigns && t != x ::
               && t in h.reigns && g.reigns[t] == h.reigns[t]
               && g.acks[Ballot(h.reigns[t].leader, t)] == h.acks[Ballot(h.reigns[t].leader, t)]
    requires x in g.reigns ==> ReignOk(g, x) && ReignShape(g.reigns, x)
    ensures ReignsOk(g) && Shaped(g.reigns)
  {
    forall t | t in g.reigns
      ensures ReignOk(g, t) && ReignShape(g.reigns, t)
    {
      if t != x {
        assert ReignOk(h, t) && ReignShape(h.reigns, t);
        ReignFrame(h, g, t);
        ShapeFrame(h.reigns, g.reigns, t);
      }
    }
  }

  lemma VotesKeep(h: History, g: History, x: Ballot)
    requires VotesOk(h) && Extends(h, g)
    requires forall b | b in g.votes && b != x :: b in h.votes
    requires x in g.votes && x !in h.votes ==> VoteOk(g, x)
    ensures VotesOk(g)
  {
    forall b | b in g.votes
      ensures VoteOk(g, b)
    {
      if b in h.votes {
        assert VoteOk(h, b);
        VoteFrame(h, g, b);
      }
    }
  }

  /** The acknowledgements of every node but `n` are as they were. */
  lemma AcksKeep(h: History, g: History, n: Id)
    requires AcksOk(h) && Extends(h, g)
    requires forall m | m in h.members && m != n :: g.members[m].log == h.members[m].log
    requires forall a | a in g.acks && a.id != n :: a in h.acks && g.acks[a] == h.acks[a]
    requires forall a | a in g.acks && a.id == n :: AckOk(g, a)
    ensures AcksOk(g)
  {
    forall a | a in g.acks
      ensures AckOk(g, a)
    {
      if a.id != n {
        assert AckOk(h, a);
        AckFrame(h, g, a);
      }
    }
  }

  /** Only the acknowledgement `xa` and the vote `xb` may be new or changed. */
  lemma AckVotesKeep(h: History, g: History, xa: Ballot, xb: Ballot)
    requires AckVotesOk(h) && AcksOk(h) && Extends(h, g)
    requires forall a | a in g.acks && a != xa :: a in h.acks && g.acks[a] == h.acks[a]
    requires forall b | b in g.votes && b != xb :: b in h.votes
    requires forall b | xa in g.acks && b in g.votes :: AckVoteOk(g, xa, b)
    requires forall a | xb in g.votes && xb !in h.votes && a in g.acks :: AckVoteOk(g, a, xb)
    ensures AckVotesOk(g)
  {
    forall a, b | a in g.acks && b in g.votes
      ensures AckVoteOk(g, a, b)
    {
      if a != xa && b in h.votes {
        assert AckOk(h, a) && AckVoteOk(h, a, b);
        AckVoteFrame(h, g, a, b);
      }
    }
  }

  /** Actions that leave votes, reigns, acknowledgements and logs alone. */
  lemma QuietKeeps(h: History, g: History, n: Id)
    requires Inv(h) && Extends(h, g) && n in h.members
    requires g.votes == h.votes && g.reigns == h.reigns && g.acks == h.acks
    requires forall m | m in h.members :: g.members[m].log == h.members[m].log
    requires forall m | m in h.members && m != n :: g.members[m] == h.members[m]
    requires MemberOk(g, n)
    ensures Inv(g)
  {
    MembersKeep(h, g, n);
    QuietReigns(h, g);
    VotesKeep(h, g, Ballot(n, 0));
    QuietAcks(h, g);
  }

  lemma QuietReigns(h: History, g: History)
    requires ReignsOk(h) && Shaped(h.reigns) && Extends(h, g) && g.reigns == h.reigns && g.acks == h.acks
    ensures ReignsOk(g) && Shaped(g.reigns)
  {
    forall t | t in g.reigns
      ensures ReignOk(g, t)
    {
      ReignFrame(h, g, t);
    }
  }

  lemma QuietAcks(h: History, g: History)
    requires AcksOk(h) && AckVotesOk(h) && Extends(h, g)
    requires g.votes == h.votes && g.acks == h.acks
    requires forall m | m in h.members :: g.members[m].log == h.members[m].log
    ensures AcksOk(g) && AckVotesOk(g)
  {
    forall a | a in g.acks
      ensures AckOk(g, a)
    {
      AckFrame(h, g, a);
    }
    forall a, b | a in g.acks && b in g.votes
      ensures AckVoteOk(g, a, b)
    {
      assert AckOk(h, a) && AckVoteOk(h, a, b);
      AckVoteFrame(h, g, a, b);
    }
  }

  /** A member that follows, in its term or a later one, and forgets nothing but part of its commit index. */
  lemma QuietMember(h: History, g: History, n: Id)
    requires Extends(h, g) && n in h.members && MemberOk(h, n) && g.votes == h.votes
    requires g.members[n].log == h.members[n].log && g.members[n].role == Follower
    requires g.members[n].commit <= h.members[n].commit
    requires g.members[n].votedFor == (if g.members[n].term == h.members[n].term then h.members[n].votedFor else None)
    requires g.members[n].term != h.members[n].term ==> Ballot(n, g.members[n].term) !in h.votes
    ensures MemberOk(g, n)
  {
    LogOkGrows(h.reigns, g.reigns, h.members[n].log);
    CommitOkGrows(h, g, h.members[n]);
    CommitOkLater(g, h.members[n], g.members[n]);
  }

  lemma CommitOkLater(h: History, m: Member, m': Member)
    requires CommitOk(h, m) && m'.term >= m.term && m'.log == m.log && m'.commit <= m.commit <= |m.log|
    ensures CommitOk(h, m')
  {
  }

  lemma NewTermKeeps(h: History, n: Id, t: nat)
    requires Inv(h) && n in h.members && h.members[n].term < t
    ensures Inv(NewTerm(h, n, t)) && Extends(h, NewTerm(h, n, t))
  {
    hide Inv, MembersOk, MemberOk, CommitOk, Extends;
    var g := NewTerm(h, n, t);
    ExtendsMember(h, n, g.members[n]);
    InvMember(h, n);
    InvFresh(h, Ballot(n, t));
    QuietMember(h, g, n);
    QuietKeeps(h, g, n);
  }

  lemma InvMember(h: History, n: Id)
    requires Inv(h) && n in h.members
    ensures MemberOk(h, n)
  {
  }

  lemma InvFresh(h: History, b: Ballot)
    requires Inv(h) && b.id in h.members && h.members[b.id].term < b.term
    ensures b !in h.votes && b !in h.acks
  {
  }

  lemma RestartKeeps(h: History, n: Id, k: nat)
    requires Inv(h) && n in h.members && k <= h.members[n].commit
    ensures Inv(Restart(h, n, k)) && Extends(h, Restart(h, n, k))
  {
    hide Inv, MembersOk, CommitOk, Extends;
    var g := Restart(h, n, k);
    InvMember(h, n);
    ExtendsMember(h, n, g.members[n]);
    QuietMember(h, g, n);
    QuietKeeps(h, g, n);
  }

  lemma ExtendsMember(h: History, n: Id, m: Member)
    requires n in h.members && m.term >= h.members[n].term
    ensures Extends(h, h.(members := h.members[n := m]))
  {
  }

  lemma StepDownKeeps(h: History, n: Id)
    requires Inv(h) && n in h.members
    ensures Inv(StepDown(h, n)) && Extends(h, StepDown(h, n))
  {
    RestartKeeps(h, n, h.members[n].commit);
  }

  lemma StandKeeps(h: History, n: Id)
    requires Inv(h) && n in h.members
    ensures Inv(Stand(h, n)) && Extends(h, Stand(h, n))
  {
    hide Inv, MembersOk, Extends, MemberOk, VoteOk, ReignsOk, Shaped, VotesOk, AcksOk, AckVotesOk, AckVoteOk;
    var g := Stand(h, n);
    var b := Ballot(n, h.members[n].term + 1);
    InvMember(h, n);
    InvFresh(h, b);
    ExtendsVote(h, g, n, b);
    InvParts(h);
    StandOk(h, n);
    MembersKeep(h, g, n);
    QuietReigns(h, g);
    VotesKeep(h, g, b);
    BallotAcks(h, g, n, b);
    PartsInv(g);
  }

  lemma InvParts(h: History)
    requires Inv(h)
    ensures MembersOk(h) && Shaped(h.reigns) && ReignsOk(h) && VotesOk(h) && AcksOk(h) && AckVotesOk(h)
  {
  }

  lemma PartsInv(h: History)
    requires MembersOk(h) && Shaped(h.reigns) && ReignsOk(h) && VotesOk(h) && AcksOk(h) && AckVotesOk(h)
    ensures Inv(h)
  {
  }

  lemma ExtendsVote(h: History, g: History, n: Id, b: Ballot)
    requires n in h.members && n in g.members && b !in h.votes && b in g.votes
    requires g.members == h.members[n := g.members[n]] && g.votes == h.votes[b := g.votes[b]]
    requires g.reigns == h.reigns && g.acks == h.acks && g.members[n].term >= h.members[n].term
    ensures Extends(h, g)
  {
  }

  lemma StandOk(h: History, n: Id)
    requires n in h.members && MemberOk(h, n) && ReignsOk(h) && Extends(h, Stand(h, n))
    ensures MemberOk(Stand(h, n), n)
    ensures VoteOk(Stand(h, n), Ballot(n, h.members[n].term + 1))
  {
    var g := Stand(h, n);
    CommitOkGrows(h, g, h.members[n]);
    CommitOkLater(g, h.members[n], g.members[n]);
  }

  /** A node's new vote, in a term that has no reign in which it counts, keeps what the node acknowledged. */
  lemma BallotAcks(h: History, g: History, n: Id, b: Ballot)
    requires AcksOk(h) && AckVotesOk(h) && Extends(h, g) && g.acks == h.acks && g.reigns == h.reigns
    requires n in h.members && b.id == n && b in g.votes && b !in h.votes
    requires forall m | m in h.members :: g.members[m].log == h.members[m].log
    requires forall c | c in g.votes && c != b :: c in h.votes
    requires g.votes[b].log == h.members[n].log && h.members[n].term <= b.term
    requires h.members[n].term == b.term && b.term in h.reigns ==> n !in h.reigns[b.term].quorum
    ensures AcksOk(g) && AckVotesOk(g)
  {
    forall a | a in g.acks
      ensures AckOk(g, a)
    {
      AckFrame(h, g, a);
    }
    forall a, c | a in g.acks && c in g.votes
      ensures AckVoteOk(g, a, c)
    {
      assert AckOk(h, a);
      if c in h.votes {
        assert AckVoteOk(h, a, c);
        AckVoteFrame(h, g, a, c);
      } else if a.id == n && a.term < b.term && (b.term in h.reigns ==> n in h.reigns[b.term].quorum) {
        KeptEarlier(h.reigns, a.term, h.acks[a], h.members[n].log, h.members[n].term, b.term - 1);
      }
    }
  }

  lemma KeptEarlier(r: map<nat, Reign>, term: nat, upto: nat, log: seq<Entry>, hi: nat, hi': nat)
    requires term in r && upto <= |r[term].log| && KeptAll(r, term, upto, log, hi)
    requires hi <= hi' || (hi == hi' + 1 && hi !in r)
    ensures KeptAll(r, term, upto, log, hi')
  {
    forall idx | 0 <= idx <= upto
      ensures Kept(r, term, idx, log, hi')
    {
      assert Kept(r, term, idx, log, hi);
    }
  }

  lemma GrantKeeps(h: History, n: Id, c: Id)
    requires Inv(h) && MayGrant(h, n, c)
    ensures Inv(Grant(h, n, c)) && Extends(h, Grant(h, n, c))
  {
    hide Inv, MembersOk, Extends, MemberOk, VoteOk, ReignsOk, ReignOk, Shaped, VotesOk, AcksOk, AckVotesOk, AckVoteOk;
    var g := Grant(h, n, c);
    var b := Ballot(n, h.members[n].term);
    InvMember(h, n);
    InvParts(h);
    NotVoted(h, n);
    ExtendsVote(h, g, n, b);
    GrantOk(h, n, c);
    MembersKeep(h, g, n);
    QuietReigns(h, g);
    VotesKeep(h, g, b);
    BallotAcks(h, g, n, b);
    PartsInv(g);
  }

  lemma NotVoted(h: History, n: Id)
    requires n in h.members && MemberOk(h, n) && ReignsOk(h) && h.members[n].votedFor == None
    ensures Ballot(n, h.members[n].term) !in h.votes
    ensures h.members[n].term in h.reigns ==> n !in h.reigns[h.members[n].term].quorum
  {
  }

  lemma GrantOk(h: History, n: Id, c: Id)
    requires MayGrant(h, n, c) && MemberOk(h, n) && VotesOk(h) && Shaped(h.reigns) && ReignsOk(h)
    requires Extends(h, Grant(h, n, c))
    ensures MemberOk(Grant(h, n, c), n)
    ensures VoteOk(Grant(h, n, c), Ballot(n, h.members[n].term))
  {
    hide Extends, ReignsOk, VotesOk, CommitOk, ReignOk, Shaped;
    var g, m := Grant(h, n, c), h.members[n];
    VoteOf(h, Ballot(c, m.term));
    assert TermsBelow(m.log, m.term) by { BehindTermsBelow(h.reigns, m.log, h.votes[Ballot(c, m.term)].log, m.term); }
    GrantKeepsMember(h, g, n);
    assert g.votes[Ballot(c, m.term)] == h.votes[Ballot(c, m.term)];
  }

  lemma VoteOf(h: History, b: Ballot)
    requires VotesOk(h) && b in h.votes
    ensures VoteOk(h, b)
  {
  }

  lemma GrantKeepsMember(h: History, g: History, n: Id)
    requires n in h.members && MemberOk(h, n) && Extends(h, g) && ReignsOk(h) && g.reigns == h.reigns
    requires h.members[n].votedFor == None && Ballot(n, h.members[n].term) in g.votes
    requires g.members[n] == h.members[n].(votedFor := Some(g.votes[Ballot(n, h.members[n].term)].candidate))
    ensures MemberOk(g, n)
  {
  }

  /** A log behind one without entries of term `t` has none either. */
  lemma BehindTermsBelow(reigns: map<nat, Reign>, log: seq<Entry>, ahead: seq<Entry>, t: nat)
    requires Shaped(reigns) && LogOk(reigns, log) && TermsBelow(ahead, t)
    requires UpToDate(LastTermOf(ahead), |ahead|, LastTermOf(log), |log|)
    ensures TermsBelow(log, t)
  {
  }

  lemma AgreeTake(a: seq<Entry>, b: seq<Entry>, n: nat, k: nat)
    requires Agree(a, b, n) && k <= n
    ensures Agree(a, b, k)
  {
  }

  lemma InvReign(h: History, t: nat)
    requires Inv(h) && t in h.reigns
    ensures ReignOk(h, t) && ReignShape(h.reigns, t)
  {
  }

  /** What was safe in a reign is in the log of every later leader. */
  lemma SafeInReign(h: History, t: nat, k: nat, t': nat)
    requires Inv(h) && Safe(h, t, k) && t' in h.reigns && t <= t'
    ensures Agree(h.reigns[t'].log, h.reigns[t].log, k)
    ensures t < t' ==> Agree(h.reigns[t'].base, h.reigns[t].log, k)
  {
    hide Inv, AckedBy;
    if t < t' && k != 0 {
      var t0: nat, idx: nat :| t0 <= t && Certified(h, t0, idx) && k <= idx && Agree(h.reigns[t0].log, h.reigns[t].log, k);
      LeaderCompleteness(h, t0, idx, t');
      InvReign(h, t');
      AgreeTake(h.reigns[t'].base, h.reigns[t0].log, idx, k);
      assert Agree(h.reigns[t'].base, h.reigns[t].log, k);
      AgreeShift(h.reigns[t].log, h.reigns[t'].base, h.reigns[t'].log, k);
    }
  }

  // ---- What the invariant gives ----

  /** Log matching: two logs with an entry of the same index and term agree on everything up to it. */
  lemma LogMatching(h: History, a: seq<Entry>, b: seq<Entry>, k: nat)
    requires LogOk(h.reigns, a) && LogOk(h.reigns, b) && k < |a| && k < |b| && a[k].term == b[k].term
    ensures a[..k + 1] == b[..k + 1]
  {
  }

  /** State-machine safety inside one history: two committed prefixes agree. */
  lemma SafePrefixesAgree(h: History, t: nat, k: nat, t': nat, k': nat)
    requires Inv(h) && Safe(h, t, k) && Safe(h, t', k') && k <= k'
    ensures Agree(h.reigns[t].log, h.reigns[t'].log, k)
  {
    hide Inv, Safe;
    SafeLength(h, t, k);
    SafeLength(h, t', k');
    if t <= t' {
      SafeInReign(h, t, k, t');
    } else {
      SafeInReign(h, t', k', t);
      AgreeTake(h.reigns[t].log, h.reigns[t'].log, k', k);
    }
  }

  lemma SafeLength(h: History, t: nat, k: nat)
    requires Safe(h, t, k)
    ensures t in h.reigns && k <= |h.reigns[t].log|
  {
  }
}

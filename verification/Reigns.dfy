/**
  The actions that change logs and reigns: an election won, a leader's append and
  commit, a follower's log brought into agreement. Each keeps the invariant of module
  Consensus.
 */
module Reigns {
  import opened Wrappers
  import opened RaftTypes
  import opened Consensus

  // ---- Winning an election ----

  /** Election safety, at the moment it matters: nobody reigns in a term that a candidate wins. */
  lemma NoReignYet(h: History, n: Id, q: set<Id>, e: Entry)
    requires MembersOk(h) && ReignsOk(h) && MayWin(h, n, q, e)
    ensures h.members[n].term !in h.reigns
  {
    var t := h.members[n].term;
    assert MemberOk(h, n);
    if t in h.reigns {
      assert ReignOk(h, t);
      var v := QuorumsMeet(q, h.reigns[t].quorum, h.members.Keys);
      assert false;
    }
  }

  lemma WinKeeps(h: History, n: Id, q: set<Id>, e: Entry)
    requires Inv(h) && MayWin(h, n, q, e)
    ensures Inv(Win(h, n, q, e)) && Extends(h, Win(h, n, q, e))
  {
    hide Inv, MembersOk, Extends, MemberOk, VoteOk, ReignsOk, ReignOk, ReignShape, Shaped, VotesOk, AcksOk, AckVotesOk, AckVoteOk, AckOk, KeptAll;
    var g := Win(h, n, q, e);
    var t := h.members[n].term;
    InvMember(h, n);
    InvParts(h);
    NoReignYet(h, n, q, e);
    ReignlessAck(h, n, t);
    WinExtends(h, g, n, t);
    WinShape(h, n, q, e);
    WinReign(h, n, q, e);
    WinMember(h, n, q, e);
    MembersKeep(h, g, n);
    ReignsKeep(h, g, t);
    VotesKeep(h, g, Ballot(n, t));
    OwnLogAcks(h, g, n, t);
    PartsInv(g);
  }

  lemma ReignlessAck(h: History, n: Id, t: nat)
    requires AcksOk(h) && t !in h.reigns
    ensures Ballot(n, t) !in h.acks
  {
  }

  lemma WinExtends(h: History, g: History, n: Id, t: nat)
    requires n in h.members && n in g.members && t !in h.reigns && t in g.reigns
    requires g.members == h.members[n := g.members[n]] && g.votes == h.votes && g.reigns == h.reigns[t := g.reigns[t]]
    requires Ballot(n, t) !in h.acks && Ballot(n, t) in g.acks && g.acks == h.acks[Ballot(n, t) := g.acks[Ballot(n, t)]]
    requires g.members[n].term >= h.members[n].term
    ensures Extends(h, g)
  {
  }

  lemma WinShape(h: History, n: Id, q: set<Id>, e: Entry)
    requires MayWin(h, n, q, e) && MemberOk(h, n) && VotesOk(h) && Extends(h, Win(h, n, q, e))
    requires h.members[n].term !in h.reigns
    ensures ReignShape(Win(h, n, q, e).reigns, h.members[n].term)
  {
    var g, m := Win(h, n, q, e), h.members[n];
    VoteOf(h, Ballot(n, m.term));
    LogOkAppend(h.reigns, g.reigns, m.log, e);
  }

  lemma LogOkAppend(r: map<nat, Reign>, s: map<nat, Reign>, log: seq<Entry>, e: Entry)
    requires LogOk(r, log) && ReignsGrow(r, s) && e.index == |log| + 1
    requires e.term in s && s[e.term].log == log + [e]
    ensures LogOk(s, log + [e])
  {
  }

  lemma WinReign(h: History, n: Id, q: set<Id>, e: Entry)
    requires MayWin(h, n, q, e) && MemberOk(h, n) && ReignsOk(h) && Extends(h, Win(h, n, q, e))
    requires h.members[n].term !in h.reigns
    ensures ReignOk(Win(h, n, q, e), h.members[n].term)
  {
    var g, m := Win(h, n, q, e), h.members[n];
    SafeFromCommit(h, g, m);
  }

  /** What a node regards as committed is safe in a reign of its term that has the node's log. */
  lemma SafeFromCommit(h: History, g: History, m: Member)
    requires CommitOk(h, m) && ReignsOk(h) && Extends(h, g) && m.commit <= |m.log|
    requires m.term in g.reigns && m.log <= g.reigns[m.term].log
    ensures Safe(g, m.term, m.commit)
  {
    if m.commit != 0 {
      var t :| t in h.reigns && t <= m.term && m.commit <= h.reigns[t].commit && Agree(m.log, h.reigns[t].log, m.commit);
      assert ReignOk(h, t);
      SafeGrows(h, g, t, h.reigns[t].commit);
      hide ReignsOk, ReignOk, Certified, CommitOk, LogOk;
      AgreeShift(h.reigns[t].log, m.log, g.reigns[m.term].log, m.commit);
      AgreeShift(g.reigns[m.term].log, h.reigns[t].log, g.reigns[t].log, m.commit);
      SafeMoves(g, t, h.reigns[t].commit, m.term, m.commit);
    }
  }

  /** A safe prefix is safe in every later reign that shares it. */
  lemma SafeMoves(h: History, t: nat, k: nat, t': nat, k': nat)
    requires Safe(h, t, k) && k' <= k && t <= t' && t' in h.reigns && Agree(h.reigns[t'].log, h.reigns[t].log, k')
    ensures Safe(h, t', k')
  {
  }

  lemma WinMember(h: History, n: Id, q: set<Id>, e: Entry)
    requires MayWin(h, n, q, e) && MemberOk(h, n) && Extends(h, Win(h, n, q, e))
    requires h.members[n].term !in h.reigns
    ensures MemberOk(Win(h, n, q, e), n)
  {
    var g, m := Win(h, n, q, e), h.members[n];
    LogOkAppend(h.reigns, g.reigns, m.log, e);
    CommitOkGrows(h, g, m);
    CommitOkLonger(g, m, g.members[n]);
  }

  lemma CommitOkLonger(h: History, m: Member, m': Member)
    requires CommitOk(h, m) && m'.term == m.term && m.log <= m'.log && m'.commit == m.commit <= |m.log|
    ensures CommitOk(h, m')
  {
  }

  /** A leader that extends its own log has acknowledged all of it. */
  lemma OwnLogAcks(h: History, g: History, n: Id, t: nat)
    requires AcksOk(h) && AckVotesOk(h) && VotesOk(g) && Extends(h, g) && g.votes == h.votes
    requires n in h.members && n in g.members
    requires g.members[n].term == h.members[n].term == t && h.members[n].log <= g.members[n].log
    requires forall m | m in h.members && m != n :: g.members[m].log == h.members[m].log
    requires t in g.reigns && g.reigns[t].log == g.members[n].log
    requires Ballot(n, t) in g.acks && g.acks == h.acks[Ballot(n, t) := |g.members[n].log|]
    ensures AcksOk(g) && AckVotesOk(g)
  {
    hide AcksOk, AckVotesOk, VotesOk, VoteOk, AckOk, Extends;
    forall a | a in g.acks && a.id == n
      ensures AckOk(g, a)
    {
      OwnLogAck(h, g, n, t, a);
    }
    AcksKeep(h, g, n);
    forall b | b in g.votes
      ensures AckVoteOk(g, Ballot(n, t), b)
    {
      NoLaterVote(g, n, b);
    }
    AckVotesKeep(h, g, Ballot(n, t), Ballot(n, t));
  }

  lemma NoLaterVote(g: History, n: Id, b: Ballot)
    requires VotesOk(g) && b in g.votes && n in g.members
    ensures b.id == n ==> b.term <= g.members[n].term
  {
  }

  lemma OwnLogAck(h: History, g: History, n: Id, t: nat, a: Ballot)
    requires AcksOk(h) && Extends(h, g) && n in h.members && a in g.acks && a.id == n
    requires g.members[n].term == h.members[n].term == t && h.members[n].log <= g.members[n].log
    requires t in g.reigns && g.reigns[t].log == g.members[n].log
    requires a in h.acks || a == Ballot(n, t)
    requires g.acks[a] == if a == Ballot(n, t) then |g.members[n].log| else h.acks[a]
    ensures AckOk(g, a)
  {
    if a != Ballot(n, t) {
      assert AckOk(h, a);
      KeptGrows(h.reigns, g.reigns, a.term, h.acks[a], h.members[n].log, t, t);
      KeptLonger(g.reigns, a.term, h.acks[a], h.members[n].log, g.members[n].log, t);
    }
  }

  lemma KeptLonger(r: map<nat, Reign>, term: nat, upto: nat, log: seq<Entry>, longer: seq<Entry>, hi: nat)
    requires term in r && upto <= |r[term].log| && KeptAll(r, term, upto, log, hi) && log <= longer
    ensures KeptAll(r, term, upto, longer, hi)
  {
    forall idx | 0 <= idx <= upto
      ensures Kept(r, term, idx, longer, hi)
    {
      assert Kept(r, term, idx, log, hi);
      if Agree(log, r[term].log, idx) {
        AgreeShift(r[term].log, log, longer, idx);
        assert Agree(longer, r[term].log, idx);
      }
    }
  }

  // ---- Reigning ----

  lemma LeadKeeps(h: History, n: Id, e: Entry)
    requires Inv(h) && MayLead(h, n, e)
    ensures Inv(Lead(h, n, e)) && Extends(h, Lead(h, n, e))
  {
    hide Inv, MembersOk, Extends, MemberOk, VoteOk, ReignsOk, ReignOk, ReignShape, Shaped, VotesOk, AcksOk, AckVotesOk, AckVoteOk, AckOk, KeptAll;
    var g := Lead(h, n, e);
    var t := h.members[n].term;
    InvMember(h, n);
    InvParts(h);
    InvReign(h, t);
    LeadExtends(h, n, e);
    LeadShape(h, n, e);
    SafeGrows(h, g, t, h.reigns[t].commit) by { ReignSafe(h, t); }
    LeadReign(h, n, e);
    LeadMember(h, n, e);
    LeaderOf(h, n);
    MembersKeep(h, g, n);
    ReignsKeep(h, g, t);
    VotesKeep(h, g, Ballot(n, t));
    OwnLogAcks(h, g, n, t);
    PartsInv(g);
  }

  lemma ReignSafe(h: History, t: nat)
    requires t in h.reigns && ReignOk(h, t)
    ensures Safe(h, t, h.reigns[t].commit)
  {
  }

  lemma LeaderOf(h: History, n: Id)
    requires n in h.members && MemberOk(h, n) && h.members[n].role == Leader
    ensures h.members[n].term in h.reigns && h.reigns[h.members[n].term].leader == n
    ensures h.reigns[h.members[n].term].log == h.members[n].log
    ensures h.reigns[h.members[n].term].commit == h.members[n].commit
  {
  }

  lemma LeadExtends(h: History, n: Id, e: Entry)
    requires MayLead(h, n, e) && MemberOk(h, n) && ReignOk(h, h.members[n].term)
    ensures Extends(h, Lead(h, n, e))
  {
  }

  lemma LeadShape(h: History, n: Id, e: Entry)
    requires MayLead(h, n, e) && MemberOk(h, n) && Extends(h, Lead(h, n, e))
    requires ReignShape(h.reigns, h.members[n].term)
    ensures ReignShape(Lead(h, n, e).reigns, h.members[n].term)
  {
    LogOkAppend(h.reigns, Lead(h, n, e).reigns, h.members[n].log, e);
  }

  lemma LeadReign(h: History, n: Id, e: Entry)
    requires MayLead(h, n, e) && MemberOk(h, n) && Extends(h, Lead(h, n, e))
    requires ReignOk(h, h.members[n].term)
    requires Safe(Lead(h, n, e), h.members[n].term, h.reigns[h.members[n].term].commit)
    ensures ReignOk(Lead(h, n, e), h.members[n].term)
  {
  }

  lemma LeadMember(h: History, n: Id, e: Entry)
    requires MayLead(h, n, e) && MemberOk(h, n) && Extends(h, Lead(h, n, e))
    ensures MemberOk(Lead(h, n, e), n)
  {
    var g, m := Lead(h, n, e), h.members[n];
    LogOkAppend(h.reigns, g.reigns, m.log, e);
    CommitOkGrows(h, g, m);
    CommitOkLonger(g, m, g.members[n]);
  }

  lemma CommitLeaderKeeps(h: History, n: Id, idx: nat, q: set<Id>)
    requires Inv(h) && n in h.members && h.members[n].term in h.reigns && MayCommitLeader(h, n, idx, q)
    ensures Inv(CommitLeader(h, n, idx)) && Extends(h, CommitLeader(h, n, idx))
  {
    hide Inv, MembersOk, Extends, MemberOk, VoteOk, ReignsOk, ReignOk, ReignShape, Shaped, VotesOk, AcksOk, AckVotesOk, AckVoteOk, AckOk, KeptAll, CommitOk, Safe;
    var g := CommitLeader(h, n, idx);
    var t := h.members[n].term;
    InvMember(h, n);
    InvParts(h);
    InvReign(h, t);
    LeaderOf(h, n);
    CommitLeaderExtends(h, n, idx);
    CommitLeaderReign(h, n, idx, q);
    CommitLeaderMember(h, n, idx);
    MembersKeep(h, g, n);
    ReignsKeep(h, g, t);
    VotesKeep(h, g, Ballot(n, t));
    QuietAcks(h, g);
    PartsInv(g);
  }

  lemma CommitLeaderExtends(h: History, n: Id, idx: nat)
    requires n in h.members && h.members[n].term in h.reigns && h.reigns[h.members[n].term].commit <= idx
    ensures Extends(h, CommitLeader(h, n, idx))
  {
  }

  lemma CommitLeaderReign(h: History, n: Id, idx: nat, q: set<Id>)
    requires n in h.members && h.members[n].term in h.reigns && MayCommitLeader(h, n, idx, q) && MemberOk(h, n)
    requires ReignOk(h, h.members[n].term) && ReignShape(h.reigns, h.members[n].term)
    requires Extends(h, CommitLeader(h, n, idx))
    ensures ReignOk(CommitLeader(h, n, idx), h.members[n].term)
    ensures ReignShape(CommitLeader(h, n, idx).reigns, h.members[n].term)
  {
    hide CommitOk, Safe;
    var g, t := CommitLeader(h, n, idx), h.members[n].term;
    LogOkGrows(h.reigns, g.reigns, h.reigns[t].log);
    assert AckedBy(g, q, t, idx);
    CertifiedSafe(g, t, idx);
  }

  lemma CertifiedSafe(h: History, t: nat, idx: nat)
    requires Certified(h, t, idx)
    ensures Safe(h, t, idx)
  {
  }

  lemma CommitLeaderMember(h: History, n: Id, idx: nat)
    requires n in h.members && h.members[n].role == Leader && MemberOk(h, n) && idx <= |h.members[n].log|
    requires h.members[n].term in h.reigns && Extends(h, CommitLeader(h, n, idx))
    ensures MemberOk(CommitLeader(h, n, idx), n)
  {
  }

  lemma CommitFollowerKeeps(h: History, n: Id, idx: nat)
    requires Inv(h) && n in h.members && MayCommitFollower(h, n, idx)
    ensures Inv(CommitFollower(h, n, idx)) && Extends(h, CommitFollower(h, n, idx))
  {
    hide Inv, MembersOk, Extends, MemberOk;
    var g := CommitFollower(h, n, idx);
    InvMember(h, n);
    ExtendsMember(h, n, g.members[n]);
    CommitFollowerMember(h, n, idx);
    QuietKeeps(h, g, n);
  }

  lemma CommitFollowerMember(h: History, n: Id, idx: nat)
    requires n in h.members && MayCommitFollower(h, n, idx) && MemberOk(h, n)
    requires Extends(h, CommitFollower(h, n, idx))
    ensures MemberOk(CommitFollower(h, n, idx), n)
  {
  }

  // ---- Following ----

  /** What a follower's log shares with its leader's survives the append handler. */
  lemma FollowShares(log: seq<Entry>, log': seq<Entry>, leader: seq<Entry>, upto: nat, k: nat)
    requires Agree(log', leader, upto) && (log' == log || (|log'| == upto && !Agree(log, leader, upto + 1)))
    requires Agree(log, leader, k)
    ensures Agree(log', leader, k)
  {
    if k > upto {
      AgreeTake(log, leader, k, upto + 1);
    } else {
      AgreeTake(log', leader, upto, k);
    }
  }

  lemma FollowKeeps(h: History, n: Id, log: seq<Entry>, upto: nat)
    requires Inv(h) && MayFollow(h, n, log, upto)
    ensures Inv(Follow(h, n, log, upto)) && Extends(h, Follow(h, n, log, upto))
  {
    hide Inv, MembersOk, Extends, MemberOk, VoteOk, ReignsOk, ReignOk, ReignShape, Shaped, VotesOk, AcksOk, AckVotesOk, AckVoteOk, AckOk, KeptAll, CommitOk, LogOk;
    var g := Follow(h, n, log, upto);
    var t := h.members[n].term;
    InvMember(h, n);
    InvParts(h);
    InvReign(h, t);
    FollowExtends(h, n, log, upto);
    CommittedWithLeader(h, n);
    FollowMember(h, n, log, upto);
    MembersKeep(h, g, n);
    FollowReigns(h, g, Ballot(n, t));
    VotesKeep(h, g, Ballot(n, t));
    forall a | a in g.acks && a.id == n
      ensures AckOk(g, a)
    {
      FollowAck(h, n, log, upto, a);
    }
    AcksKeep(h, g, n);
    forall b | b in g.votes
      ensures AckVoteOk(g, Ballot(n, t), b)
    {
      NoLaterVote(g, n, b);
      AckVoteTrivial(g, Ballot(n, t), b);
    }
    AckVotesKeep(h, g, Ballot(n, t), Ballot(n, t));
    PartsInv(g);
  }

  lemma AckVoteTrivial(h: History, a: Ballot, b: Ballot)
    requires a in h.acks && b in h.votes && (a.id == b.id ==> b.term <= a.term)
    ensures AckVoteOk(h, a, b)
  {
  }

  lemma FollowExtends(h: History, n: Id, log: seq<Entry>, upto: nat)
    requires MayFollow(h, n, log, upto)
    ensures Extends(h, Follow(h, n, log, upto))
  {
  }

  /** Nobody but a leader acknowledges on the leader's behalf. */
  lemma FollowReigns(h: History, g: History, a: Ballot)
    requires ReignsOk(h) && Shaped(h.reigns) && Extends(h, g) && g.reigns == h.reigns
    requires a in g.acks && g.acks == h.acks[a := g.acks[a]]
    requires a.term in h.reigns && h.reigns[a.term].leader != a.id
    ensures ReignsOk(g) && Shaped(g.reigns)
  {
    forall t | t in g.reigns
      ensures ReignOk(g, t)
    {
      ReignFrame(h, g, t);
    }
  }

  /** A follower's committed prefix is in the log of the leader of its term. */
  lemma CommittedWithLeader(h: History, n: Id)
    requires Inv(h) && n in h.members && h.members[n].term in h.reigns
    ensures Agree(h.members[n].log, h.reigns[h.members[n].term].log, h.members[n].commit)
  {
    hide Inv, MembersOk, ReignOk, Safe;
    var m := h.members[n];
    InvMember(h, n);
    if m.commit != 0 {
      var t :| t in h.reigns && t <= m.term && m.commit <= h.reigns[t].commit && Agree(m.log, h.reigns[t].log, m.commit);
      InvReign(h, t);
      ReignSafe(h, t);
      SafeInReign(h, t, h.reigns[t].commit, m.term);
      AgreeTake(h.reigns[m.term].log, h.reigns[t].log, h.reigns[t].commit, m.commit);
    }
  }

  lemma FollowMember(h: History, n: Id, log: seq<Entry>, upto: nat)
    requires MayFollow(h, n, log, upto) && MemberOk(h, n)
    requires ReignShape(h.reigns, h.members[n].term)
    requires Agree(h.members[n].log, h.reigns[h.members[n].term].log, h.members[n].commit)
    requires Extends(h, Follow(h, n, log, upto))
    ensures MemberOk(Follow(h, n, log, upto), n)
  {
    hide ReignShape;
    var g, m := Follow(h, n, log, upto), h.members[n];
    FollowShares(m.log, log, h.reigns[m.term].log, upto, m.commit);
    FollowCommit(h, g, m, log);
    if log != m.log {
      assert log == h.reigns[m.term].log[..upto];
      LogOkTake(h.reigns, m.term, upto);
    }
  }

  lemma FollowCommit(h: History, g: History, m: Member, log: seq<Entry>)
    requires CommitOk(h, m) && Extends(h, g) && m.term in h.reigns && m.commit <= |m.log|
    requires Agree(m.log, h.reigns[m.term].log, m.commit) && Agree(log, h.reigns[m.term].log, m.commit)
    ensures CommitOk(g, m.(log := log))
  {
  }

  lemma LogOkTake(reigns: map<nat, Reign>, t: nat, k: nat)
    requires t in reigns && ReignShape(reigns, t) && k <= |reigns[t].log|
    ensures LogOk(reigns, reigns[t].log[..k])
    ensures TermsBelow(reigns[t].log[..k], t + 1)
  {
  }

  lemma FollowAck(h: History, n: Id, log: seq<Entry>, upto: nat, a: Ballot)
    requires MayFollow(h, n, log, upto) && AcksOk(h) && ReignShape(h.reigns, h.members[n].term)
    requires Extends(h, Follow(h, n, log, upto))
    requires a in Follow(h, n, log, upto).acks && a.id == n
    ensures AckOk(Follow(h, n, log, upto), a)
  {
    hide Extends, LogOk, TermsBelow;
    var g, m := Follow(h, n, log, upto), h.members[n];
    if a in h.acks { assert AckOk(h, a); }
    forall idx | 0 <= idx <= g.acks[a]
      ensures Kept(g.reigns, a.term, idx, log, m.term)
    {
      if a in h.acks && idx <= h.acks[a] {
        assert Kept(h.reigns, a.term, idx, m.log, m.term);
        FollowKept(h.reigns, m.term, m.log, log, upto, a.term, idx);
      } else {
        AgreeTake(log, h.reigns[m.term].log, upto, idx);
      }
    }
  }

  lemma FollowKept(reigns: map<nat, Reign>, t: nat, log: seq<Entry>, log': seq<Entry>, upto: nat, at: nat, idx: nat)
    requires t in reigns && at in reigns && at <= t && idx <= |reigns[at].log| && reigns[t].base <= reigns[t].log
    requires Agree(log', reigns[t].log, upto) && (log' == log || (|log'| == upto && !Agree(log, reigns[t].log, upto + 1)))
    requires Kept(reigns, at, idx, log, t)
    ensures Kept(reigns, at, idx, log', t)
  {
  }
}

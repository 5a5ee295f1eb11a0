/**
  A leader of the latest term gets its log to every node, commits it, and has it
  applied; so from every reachable state some calm way leads to a call's result, to a
  read's return, and to nodes that have all applied one log.
 */
module Delivery {
  import opened Wrappers
  import opened RaftTypes
  import opened CompactLog
  import opened Protocol
  import opened StoreSpec
  import opened Cluster
  import opened Safety
  import opened Voting
  import opened Trails
  import opened Progress
  import opened Commits
  import opened Simulation
  import C = Consensus

  // ---- One peer ----

  /** What a peer makes of a request of the latest term. */
  lemma PeerAnswers(r: Run, req: AppendReq)
    requires IsRun(r) && req.to in Now(r).servers && AppendRequest(req) in Now(r).net && NodeOf(r, req.to).term <= req.term
    ensures NodeOf(r, req.to).log.Valid() && WellFormed(req)
    ensures var n := NodeOf(r, req.to);
            var (m, resp) := HandleAppend(n, req);
            && m.role == Follower && m.term == req.term && resp.term == req.term && m.id == n.id
            && (!resp.success ==> req.prevIndex > 0)
            && (resp.success ==> m.commitIndex >= req.leaderCommit)
  {
    hide IsRun, HandleAppend, RLog.Valid, WellFormed, LeadsFit, Majority, ClusterSize;
    IsFit(r, req.to);
    RunLength(r);
    CommitClampSound(r, |r.actions|, req);
    HeardIsHealthy(NodeOf(r, req.to), req);
    AnswerTerm(NodeOf(r, req.to), req);
  }

  lemma AnswerTerm(n: Node, req: AppendReq)
    requires n.log.Valid() && WellFormed(req) && n.term <= req.term
    ensures var (m, resp) := HandleAppend(n, req);
            resp.term == req.term && (!resp.success ==> req.prevIndex > 0) && m.id == n.id
  {
    hide MergeEntries, Merge, Fits, Flush, RLog.LastIndex, RLog.Valid, WellFormed, RLog.TermAt;
    BecomeFollowerFields(n, req.term);
    var k := Acknowledge(n, req);
    if !Mismatch(k, req) {
      TakesFits(k, req);
      MergeTouches(k, req.entries);
    }
  }

  /** The leader differs in its index maps and in a commit index that did not go back. */
  predicate LeaderOn(n: Node, m: Node) {
    && m == n.(nextIndex := m.nextIndex, matchIndex := m.matchIndex, commitIndex := m.commitIndex)
    && m.commitIndex >= n.commitIndex && n.matchIndex.Keys <= m.matchIndex.Keys
    && forall o | o in n.matchIndex :: m.matchIndex[o] >= n.matchIndex[o]
  }

  /** A refusal takes the next index back, but not to 0. */
  lemma RefusalLowers(n: Node, req: AppendReq, resp: AppendResp)
    requires n.log.Valid() && n.role == Leader && req.term == n.term && resp.term == n.term && !resp.success
    requires req.to in n.nextIndex && n.nextIndex[req.to] == req.prevIndex + 1 && req.prevIndex > 0
    ensures var m := OnAppendResp(n, req, resp);
            LeaderOn(n, m) && req.to in m.nextIndex && m.nextIndex[req.to] < n.nextIndex[req.to]
  {
    hide RLog.Valid;
  }

  /** An acceptance counts. */
  lemma AcceptanceCounts(n: Node, req: AppendReq, resp: AppendResp)
    requires n.log.Valid() && n.role == Leader && req.term == n.term && resp.term == n.term && resp.success
    requires req.prevIndex + |req.entries| == n.log.LastIndex() && req.to in n.matchIndex
    ensures var m := OnAppendResp(n, req, resp);
            LeaderOn(n, m) && req.to in m.matchIndex && m.matchIndex[req.to] >= n.log.LastIndex()
  {
    hide RLog.Valid, RLog.LastIndex, CommitUpTo, CanCommit;
    var reached := req.prevIndex + |req.entries|;
    var held := if reached > Lookup(n.matchIndex, req.to) then reached else Lookup(n.matchIndex, req.to);
    var k := n.(matchIndex := if reached > Lookup(n.matchIndex, req.to) then n.matchIndex[req.to := reached] else n.matchIndex,
                nextIndex := n.nextIndex[req.to := held + 1]);
    CommitFound(k, n.log.LastIndex());
  }

  /** Peer `p` follows in the leader's term and has committed at least so much. */
  predicate Brought(s: Server, t: Server, term: nat, commit: nat) {
    t == s.(raft := t.raft) && t.raft.role == Follower && t.raft.term == term && t.raft.commitIndex >= commit
  }

  ghost predicate LeadsOn(c: Cluster, d: Cluster, id: Id)
    requires id in c.servers && id in d.servers
  {
    d.servers[id] == c.servers[id].(raft := d.servers[id].raft) && LeaderOn(c.servers[id].raft, d.servers[id].raft)
  }

  /** Requests go back and forth until the peer holds all of the leader's log. */
  lemma {:induction false} Brings(r: Run, id: Id, p: Id) returns (q: Run)
    requires IsRun(r) && id in Now(r).servers && Reigns(Now(r), id) && p in Now(r).servers && p != id
    ensures Onward(r, q) && id in Now(q).servers && p in Now(q).servers
    ensures Kept(Now(r), Now(q), {id, p}) && Reigns(Now(q), id) && LeadsOn(Now(r), Now(q), id)
    ensures Brought(Now(r).servers[p], Now(q).servers[p], NodeOf(r, id).term, NodeOf(r, id).commitIndex)
    ensures p in NodeOf(q, id).matchIndex && NodeOf(q, id).matchIndex[p] >= |NodeOf(r, id).log.entries|
    decreases if p in NodeOf(r, id).nextIndex then NodeOf(r, id).nextIndex[p] else 0
  {
    hide IsRun, Prolongs, Kept, Reigns, LeadsOn, Brought;
    var e, accepted := Exchanged(r, id, p);
    if accepted {
      q := e;
    } else {
      q := Brings(e, id, p);
      WayOn(r, e, q);
      BroughtOn(Now(r), Now(e), Now(q), id, p);
    }
  }

  /** An exchange brings the peer all, or lowers the next index. */
  lemma Exchanged(r: Run, id: Id, p: Id) returns (q: Run, accepted: bool)
    requires IsRun(r) && Reigns(Now(r), id) && p in Now(r).servers && p != id
    ensures Onward(r, q) && id in Now(r).servers && id in Now(q).servers && p in Now(q).servers
    ensures Kept(Now(r), Now(q), {id, p}) && Reigns(Now(q), id) && LeadsOn(Now(r), Now(q), id)
    ensures Brought(Now(r).servers[p], Now(q).servers[p], NodeOf(r, id).term, if accepted then NodeOf(r, id).commitIndex else 0)
    ensures p in NodeOf(r, id).nextIndex
    ensures var n, m := NodeOf(r, id), NodeOf(q, id);
            if accepted then p in m.matchIndex && m.matchIndex[p] >= |n.log.entries|
            else p in m.nextIndex && m.nextIndex[p] < n.nextIndex[p]
  {
    hide IsRun, Prolongs, OnAppendResp, RLog.Valid, Majority, ClusterSize, Reigns, Kept;
    LeaderThere(Now(r), id);
    var req, resp;
    q, req, resp := Exchange(r, id, p);
    IsFit(r, id);
    accepted := resp.success;
    if accepted {
      AcceptanceCounts(NodeOf(r, id), req, resp);
    } else {
      RefusalLowers(NodeOf(r, id), req, resp);
    }
    KeptKeys(Now(r), Now(q), {id, p});
    StillReigns(Now(r), Now(q), id, p);
  }

  lemma KeptKeys(c: Cluster, d: Cluster, ids: set<Id>)
    requires Kept(c, d, ids)
    ensures d.servers.Keys == c.servers.Keys
  {
  }

  lemma LeaderThere(c: Cluster, id: Id)
    requires Reigns(c, id)
    ensures id in c.servers && c.servers[id].raft.role == Leader
  {
  }

  lemma StillReigns(c: Cluster, d: Cluster, id: Id, p: Id)
    requires Reigns(c, id) && Kept(c, d, {id, p}) && p in d.servers
    requires d.servers[id].raft.role == Leader && d.servers[id].raft.term == c.servers[id].raft.term
    requires d.servers[p].raft.term <= c.servers[id].raft.term
    ensures Reigns(d, id)
  {
  }

  lemma BroughtOn(c: Cluster, e: Cluster, d: Cluster, id: Id, p: Id)
    requires id in c.servers && id in e.servers && id in d.servers && p in c.servers && p in e.servers && p in d.servers
    requires Kept(c, e, {id, p}) && Kept(e, d, {id, p}) && LeadsOn(c, e, id) && LeadsOn(e, d, id)
    requires Brought(c.servers[p], e.servers[p], c.servers[id].raft.term, 0)
    requires Brought(e.servers[p], d.servers[p], e.servers[id].raft.term, e.servers[id].raft.commitIndex)
    ensures Kept(c, d, {id, p}) && LeadsOn(c, d, id) && d.servers[id].raft.log == c.servers[id].raft.log
    ensures Brought(c.servers[p], d.servers[p], c.servers[id].raft.term, c.servers[id].raft.commitIndex)
    ensures e.servers[id].raft.log == c.servers[id].raft.log
  {
    KeptOn(c, e, d, {id, p}, {id, p});
    assert {id, p} + {id, p} == {id, p};
    LeaderOnOn(c.servers[id].raft, e.servers[id].raft, d.servers[id].raft);
  }

  lemma LeaderOnOn(n: Node, m: Node, k: Node)
    requires LeaderOn(n, m) && LeaderOn(m, k)
    ensures LeaderOn(n, k) && k.log == n.log
  {
  }

  /** One request, and its answer. */
  lemma Exchange(r: Run, id: Id, p: Id) returns (q: Run, req: AppendReq, resp: AppendResp)
    requires IsRun(r) && Reigns(Now(r), id) && p in Now(r).servers && p != id
    ensures NodeOf(r, id).log.Valid() && Onward(r, q) && Kept(Now(r), Now(q), {id, p})
    ensures Now(q).servers[id] == Now(r).servers[id].(raft := OnAppendResp(NodeOf(r, id), req, resp))
    ensures var n, m := NodeOf(r, id), NodeOf(q, p);
            && p in n.nextIndex && req.to == p && req.term == n.term && req.prevIndex + 1 == n.nextIndex[p]
            && req.prevIndex + |req.entries| == |n.log.entries| && resp.term == n.term
            && Now(q).servers[p] == Now(r).servers[p].(raft := m) && m.role == Follower && m.term == n.term
            && (!resp.success ==> req.prevIndex > 0) && (resp.success ==> m.commitIndex >= n.commitIndex)
  {
    hide IsRun, Prolongs, HandleAppend, OnAppendResp, RLog.Valid, WellFormed, RLog.LastIndex, Majority, ClusterSize, Peers;
    var e;
    e, req, resp := Requested(r, id, p);
    q := ReplyHeard(e, req, resp);
    WayOn(r, e, q);
    KeptOn(Now(r), Now(e), Now(q), {p}, {id});
    assert {p} + {id} == {id, p};
  }

  /** One request goes out and is answered. */
  lemma Requested(r: Run, id: Id, p: Id) returns (q: Run, req: AppendReq, resp: AppendResp)
    requires IsRun(r) && Reigns(Now(r), id) && p in Now(r).servers && p != id
    ensures NodeOf(r, id).log.Valid() && Onward(r, q) && Kept(Now(r), Now(q), {p}) && AppendReply(req, resp) in Now(q).net
    ensures var n, m := NodeOf(r, id), NodeOf(q, p);
            && p in n.nextIndex && req.from == id && req.to == p && req.call == None && req.term == n.term
            && req.prevIndex + 1 == n.nextIndex[p] && req.prevIndex + |req.entries| == |n.log.entries| && resp.term == n.term
            && Now(q).servers[p] == Now(r).servers[p].(raft := m) && m.role == Follower && m.term == n.term
            && (!resp.success ==> req.prevIndex > 0) && (resp.success ==> m.commitIndex >= n.commitIndex)
  {
    hide IsRun, Prolongs, HandleAppend, RLog.Valid, WellFormed, Fit;
    NodeNamed(r, id);
    var e;
    e, req := Offers(r, id, p);
    PeerAnswers(e, req);
    q := Heard(e, req);
    resp := HandleAppend(NodeOf(e, p), req).1;
    WayOn(r, e, q);
  }

  // ---- Every peer ----

  /** Peer `p` holds all of the log its leader had, as the leader knows, and has committed what the leader had. */
  ghost predicate Supplied(c: Cluster, d: Cluster, id: Id, p: Id) {
    && id in c.servers && id in d.servers && p in c.servers && p in d.servers
    && Brought(c.servers[p], d.servers[p], c.servers[id].raft.term, c.servers[id].raft.commitIndex)
    && p in d.servers[id].raft.matchIndex && d.servers[id].raft.matchIndex[p] >= |c.servers[id].raft.log.entries|
  }

  /** The peers of `ids` in turn. */
  lemma {:induction false} BringsAll(r: Run, id: Id, ids: set<Id>) returns (q: Run)
    requires IsRun(r) && id in Now(r).servers && Reigns(Now(r), id) && ids <= Now(r).servers.Keys - {id}
    ensures Onward(r, q) && id in Now(q).servers && Kept(Now(r), Now(q), ids + {id})
    ensures Reigns(Now(q), id) && LeadsOn(Now(r), Now(q), id)
    ensures forall p | p in ids :: Supplied(Now(r), Now(q), id, p)
    decreases |ids|
  {
    hide IsRun, Prolongs, Reigns, LeadsOn, Supplied, Kept, Brought;
    if ids == {} {
      NoWay(r);
      q := r;
      LeadsOnSame(Now(r), id);
    } else {
      var p :| p in ids;
      var rest := ids - {p};
      assert ids == rest + {p};
      var e := BringsAll(r, id, rest);
      KeptKeys(Now(r), Now(e), rest + {id});
      q := Brings(e, id, p);
      WayOn(r, e, q);
      OneMore(Now(r), Now(e), Now(q), id, p, rest);
    }
  }

  lemma OneMore(c: Cluster, e: Cluster, d: Cluster, id: Id, p: Id, rest: set<Id>)
    requires id in c.servers && id in e.servers && id in d.servers && p in c.servers && p in e.servers && p in d.servers
    requires p !in rest && p != id && id !in rest && Kept(c, e, rest + {id}) && LeadsOn(c, e, id)
    requires Kept(e, d, {id, p}) && LeadsOn(e, d, id)
    requires forall o | o in rest :: Supplied(c, e, id, o)
    requires Brought(e.servers[p], d.servers[p], e.servers[id].raft.term, e.servers[id].raft.commitIndex)
    requires p in d.servers[id].raft.matchIndex && d.servers[id].raft.matchIndex[p] >= |e.servers[id].raft.log.entries|
    ensures Kept(c, d, rest + {p} + {id}) && LeadsOn(c, d, id) && forall o | o in rest + {p} :: Supplied(c, d, id, o)
  {
    hide Kept, LeadsOn, Supplied, Brought;
    LeadsOnOn(c, e, d, id);
    KeptOn(c, e, d, rest + {id}, {id, p});
    assert rest + {id} + {id, p} == rest + {p} + {id};
    SuppliedNow(c, e, d, id, p, rest);
    forall o | o in rest
      ensures Supplied(c, d, id, o)
    {
      SuppliedStays(c, e, d, id, o, p);
    }
  }

  lemma LeadsOnSame(c: Cluster, id: Id)
    requires id in c.servers
    ensures LeadsOn(c, c, id) && Kept(c, c, {} + {id})
  {
  }

  lemma LeadsOnOn(c: Cluster, e: Cluster, d: Cluster, id: Id)
    requires id in c.servers && id in e.servers && id in d.servers && LeadsOn(c, e, id) && LeadsOn(e, d, id)
    ensures LeadsOn(c, d, id) && e.servers[id].raft.log == c.servers[id].raft.log && d.servers[id].raft.log == c.servers[id].raft.log
  {
    LeaderOnOn(c.servers[id].raft, e.servers[id].raft, d.servers[id].raft);
  }

  lemma SuppliedNow(c: Cluster, e: Cluster, d: Cluster, id: Id, p: Id, rest: set<Id>)
    requires id in c.servers && id in e.servers && id in d.servers && p in c.servers && p in e.servers && p in d.servers
    requires p !in rest && p != id && Kept(c, e, rest + {id}) && LeadsOn(c, e, id)
    requires Brought(e.servers[p], d.servers[p], e.servers[id].raft.term, e.servers[id].raft.commitIndex)
    requires p in d.servers[id].raft.matchIndex && d.servers[id].raft.matchIndex[p] >= |e.servers[id].raft.log.entries|
    ensures Supplied(c, d, id, p)
  {
  }

  lemma SuppliedStays(c: Cluster, e: Cluster, d: Cluster, id: Id, o: Id, p: Id)
    requires id in e.servers && id in d.servers && Supplied(c, e, id, o) && o != p && o != id
    requires Kept(e, d, {id, p}) && LeadsOn(e, d, id)
    ensures Supplied(c, d, id, o)
  {
  }

  // ---- All committed everywhere ----

  /** Once every peer's index has come to its log's end, the leader may commit that. */
  lemma AllHold(r: Run, id: Id)
    requires IsRun(r) && id in Now(r).servers && NodeOf(r, id).role == Leader
    requires forall p | p in Now(r).servers && p != id ::
               p in NodeOf(r, id).matchIndex && NodeOf(r, id).matchIndex[p] >= |NodeOf(r, id).log.entries|
    ensures NodeOf(r, id).log.Valid() && CanCommit(NodeOf(r, id), |NodeOf(r, id).log.entries|)
  {
    hide IsRun;
    IsFit(r, id);
    var n := NodeOf(r, id);
    assert Holders(n, |n.log.entries|) == Peers(n);
  }

  /** The leader commits all of its log, and all peers learn it. */
  lemma AllCommit(r: Run, id: Id) returns (q: Run)
    requires IsRun(r) && id in Now(r).servers && Reigns(Now(r), id)
    ensures Onward(r, q) && Reigns(Now(q), id) && Now(q).servers.Keys == Now(r).servers.Keys && LeadsOn(Now(r), Now(q), id)
    ensures NodeOf(q, id).commitIndex >= |NodeOf(r, id).log.entries|
    ensures forall p | p in Now(r).servers && p != id ::
              Brought(Now(r).servers[p], Now(q).servers[p], NodeOf(r, id).term, |NodeOf(r, id).log.entries|)
  {
    hide IsRun, Prolongs, Reigns, Kept, LeadsOn, RLog.Valid, CanCommit, Brought, Supplied;
    var peers := Now(r).servers.Keys - {id};
    var e := BringsAll(r, id, peers);
    KeptKeys(Now(r), Now(e), peers + {id});
    LeaderThere(Now(e), id);
    LeadsOnLog(Now(r), Now(e), id);
    forall p | p in Now(e).servers && p != id
      ensures p in NodeOf(e, id).matchIndex && NodeOf(e, id).matchIndex[p] >= |NodeOf(e, id).log.entries|
    {
      SuppliedMatch(Now(r), Now(e), id, p);
    }
    AllHold(e, id);
    CommitsAlone(e, id);
    q := BringsAll(e, id, peers);
    KeptKeys(Now(e), Now(q), peers + {id});
    WayOn(r, e, q);
    LeadsOnOn(Now(r), Now(e), Now(q), id);
    LeadsOnLog(Now(e), Now(q), id);
    forall p | p in Now(r).servers && p != id
      ensures Brought(Now(r).servers[p], Now(q).servers[p], NodeOf(r, id).term, |NodeOf(r, id).log.entries|)
    {
      SuppliedTwice(Now(r), Now(e), Now(q), id, p);
    }
  }

  lemma LeadsOnLog(c: Cluster, d: Cluster, id: Id)
    requires id in c.servers && id in d.servers && LeadsOn(c, d, id)
    ensures d.servers[id].raft.log == c.servers[id].raft.log && d.servers[id].raft.term == c.servers[id].raft.term
    ensures d.servers[id].raft.commitIndex >= c.servers[id].raft.commitIndex
  {
  }

  lemma SuppliedMatch(c: Cluster, d: Cluster, id: Id, p: Id)
    requires Supplied(c, d, id, p)
    ensures id in d.servers && p in d.servers[id].raft.matchIndex
    ensures id in c.servers && d.servers[id].raft.matchIndex[p] >= |c.servers[id].raft.log.entries|
  {
  }

  lemma SuppliedTwice(c: Cluster, e: Cluster, d: Cluster, id: Id, p: Id)
    requires Supplied(c, e, id, p) && Supplied(e, d, id, p) && e.servers[id].raft.commitIndex >= |c.servers[id].raft.log.entries|
    requires e.servers[id].raft.term == c.servers[id].raft.term
    ensures p in c.servers && p in d.servers && id in c.servers
    ensures Brought(c.servers[p], d.servers[p], c.servers[id].raft.term, |c.servers[id].raft.log.entries|)
  {
  }

  /** What a leader may commit it has committed. */
  lemma CommitsAlone(r: Run, id: Id)
    requires IsRun(r) && id in Now(r).servers && NodeOf(r, id).role == Leader && NodeOf(r, id).log.Valid()
    requires CanCommit(NodeOf(r, id), |NodeOf(r, id).log.entries|)
    ensures NodeOf(r, id).commitIndex >= |NodeOf(r, id).log.entries|
  {
    hide IsRun, CanCommit, RLog.Valid;
    RunLength(r);
    NothingHeldBack(r, |r.actions|, id);
  }

  // ---- All applied everywhere ----

  /** A node applies all that it has committed. */
  lemma Applies(r: Run, id: Id) returns (q: Run)
    requires IsRun(r) && id in Now(r).servers
    ensures Onward(r, q) && id in Now(q).servers && Kept(Now(r), Now(q), {id})
    ensures AppliedTo(Now(r).servers[id], Now(q).servers[id], NodeOf(r, id).commitIndex)
  {
    hide IsRun, Prolongs, Kept;
    var e := HandEmptied(r, id);
    q := AppliesOn(e, id);
    WayOn(r, e, q);
    KeptTwice(Now(r), Now(e), Now(q), id);
  }

  lemma KeptTwice(c: Cluster, d: Cluster, e: Cluster, id: Id)
    requires Kept(c, d, {id}) && Kept(d, e, {id})
    ensures Kept(c, e, {id})
  {
    KeptOn(c, d, e, {id}, {id});
    assert {id} + {id} == {id};
  }

  lemma {:induction false} AppliesOn(r: Run, id: Id) returns (q: Run)
    requires IsRun(r) && id in Now(r).servers && Now(r).servers[id].applying == None
    ensures Onward(r, q) && id in Now(q).servers && Kept(Now(r), Now(q), {id})
    ensures AppliedTo(Now(r).servers[id], Now(q).servers[id], NodeOf(r, id).commitIndex)
    decreases NodeOf(r, id).commitIndex - NodeOf(r, id).lastApplied
  {
    hide IsRun, Prolongs, Kept, Majority, ClusterSize, LeadsFit, RLog.Valid;
    IsFit(r, id);
    if NodeOf(r, id).lastApplied == NodeOf(r, id).commitIndex {
      NoWay(r);
      KeptSame(Now(r), id);
      q := r;
    } else {
      var e := OneApplied(r, id);
      IsFit(e, id);
      q := AppliesOn(e, id);
      WayOn(r, e, q);
      KeptTwice(Now(r), Now(e), Now(q), id);
    }
  }

  lemma OneApplied(r: Run, id: Id) returns (q: Run)
    requires IsRun(r) && id in Now(r).servers && Now(r).servers[id].applying == None
    requires NodeOf(r, id).lastApplied < NodeOf(r, id).commitIndex
    ensures Onward(r, q) && id in Now(q).servers && Kept(Now(r), Now(q), {id}) && NodeOf(q, id).lastApplied > NodeOf(r, id).lastApplied
    ensures AppliedTo(Now(r).servers[id], Now(q).servers[id], NodeOf(q, id).lastApplied)
  {
    hide IsRun, Prolongs, Kept;
    var e := NextTaken(r, id);
    KeptKeys(Now(r), Now(e), {id});
    q := HandEmptied(e, id);
    WayOn(r, e, q);
    KeptTwice(Now(r), Now(e), Now(q), id);
  }

  lemma {:induction false} AllApply(r: Run, ids: set<Id>) returns (q: Run)
    requires IsRun(r) && ids <= Now(r).servers.Keys
    ensures Onward(r, q) && Kept(Now(r), Now(q), ids)
    ensures forall j | j in ids :: HasApplied(Now(r), Now(q), j)
    decreases |ids|
  {
    hide IsRun, Prolongs, Kept, HasApplied;
    if ids == {} {
      NoWay(r);
      q := r;
      NothingKept(Now(r));
    } else {
      var j :| j in ids;
      var rest := ids - {j};
      assert ids == rest + {j};
      var e := AllApply(r, rest);
      KeptKeys(Now(r), Now(e), rest);
      q := Applies(e, j);
      WayOn(r, e, q);
      OneMoreApplied(Now(r), Now(e), Now(q), j, rest);
    }
  }

  ghost predicate HasApplied(c: Cluster, d: Cluster, j: Id) {
    j in c.servers && j in d.servers && AppliedTo(c.servers[j], d.servers[j], c.servers[j].raft.commitIndex)
  }

  lemma NothingKept(c: Cluster)
    ensures Kept(c, c, {})
  {
  }

  lemma OneMoreApplied(c: Cluster, e: Cluster, d: Cluster, j: Id, rest: set<Id>)
    requires j in c.servers && j in e.servers && j in d.servers && j !in rest && Kept(c, e, rest) && Kept(e, d, {j})
    requires forall o | o in rest :: HasApplied(c, e, o)
    requires AppliedTo(e.servers[j], d.servers[j], e.servers[j].raft.commitIndex)
    ensures Kept(c, d, rest + {j}) && forall o | o in rest + {j} :: HasApplied(c, d, o)
  {
    KeptOn(c, e, d, rest, {j});
  }

  // ---- One log everywhere ----

  /** Node `j` has committed and applied exactly the log of leader `id`, in the leader's term. */
  ghost predicate InStep(c: Cluster, id: Id, j: Id) {
    && id in c.servers && j in c.servers
    && var s, l := c.servers[j], c.servers[id].raft;
    && s.applying == None && s.raft.term == l.term && (j != id ==> s.raft.role == Follower)
    && s.raft.lastApplied == s.raft.commitIndex == |l.log.entries|
    && Agree(s.raft.log.entries, l.log.entries, |l.log.entries|) && s.store == StoreAfter(l.log.entries)
  }

  /** One node leads, and all have applied its log. */
  ghost predicate Converged(c: Cluster, id: Id) {
    id in c.servers && c.servers[id].raft.role == Leader && forall j | j in c.servers :: InStep(c, id, j)
  }

  /** A follower of the leader's term that has applied what it has committed, at least the leader's log. */
  lemma IsInStep(r: Run, id: Id, j: Id)
    requires IsRun(r) && id in Now(r).servers && j in Now(r).servers && NodeOf(r, id).role == Leader
    requires Now(r).servers[j].applying == None && NodeOf(r, j).term == NodeOf(r, id).term && (j != id ==> NodeOf(r, j).role == Follower)
    requires NodeOf(r, j).lastApplied == NodeOf(r, j).commitIndex >= |NodeOf(r, id).log.entries|
    ensures InStep(Now(r), id, j)
  {
    hide IsRun, StoreAfter;
    RunLength(r);
    var i := |r.actions|;
    LeaderCompleteness(r, i, j, i, id);
    var log := NodeOf(r, id).log.entries;
    assert log[..|log|] == log;
    StoreFolds(r, j);
  }

  lemma StoreFolds(r: Run, j: Id)
    requires IsRun(r) && j in Now(r).servers && Now(r).servers[j].applying == None
    ensures NodeOf(r, j).lastApplied <= |NodeOf(r, j).log.entries|
    ensures Now(r).servers[j].store == StoreAfter(NodeOf(r, j).log.entries[..NodeOf(r, j).lastApplied])
  {
    hide IsRun, Follows, ServerOk, C.Inv, C.MemberOk, C.Extends, StoreAfter;
    RunLength(r);
    var hs, caps := RunSimulated(r);
    var i := |r.actions|;
    NodeFacts(r, hs, caps, i, i, j);
    Parts(hs[i], ContextOf(Now(r), caps[i]), Now(r).servers[j]);
  }

  /** A leader of the latest term has all nodes apply its log. */
  lemma Converges(r: Run, id: Id) returns (q: Run)
    requires IsRun(r) && id in Now(r).servers && Reigns(Now(r), id)
    ensures Onward(r, q) && Converged(Now(q), id) && Now(q).servers.Keys == Now(r).servers.Keys
    ensures NodeOf(q, id).log == NodeOf(r, id).log && NodeOf(q, id).term == NodeOf(r, id).term
  {
    hide IsRun, Prolongs, Reigns, Kept, LeadsOn, Brought, HasApplied, InStep;
    var e := AllCommit(r, id);
    q := AllApply(e, Now(e).servers.Keys);
    WayOn(r, e, q);
    KeptKeys(Now(e), Now(q), Now(e).servers.Keys);
    LeadsOnLog(Now(r), Now(e), id);
    LeaderThere(Now(e), id);
    SameAfter(Now(e), Now(q), id);
    forall j | j in Now(q).servers
      ensures InStep(Now(q), id, j)
    {
      SameAfter(Now(e), Now(q), j);
      if j != id {
        BroughtFields(Now(r).servers[j], Now(e).servers[j], NodeOf(r, id).term, |NodeOf(r, id).log.entries|);
      }
      IsInStep(q, id, j);
    }
  }

  lemma SameAfter(c: Cluster, d: Cluster, j: Id)
    requires HasApplied(c, d, j)
    ensures j in c.servers && j in d.servers && d.servers[j].applying == None
    ensures var n, m := c.servers[j].raft, d.servers[j].raft;
            && m.role == n.role && m.term == n.term && m.log == n.log && m.commitIndex == n.commitIndex == m.lastApplied
  {
  }

  lemma BroughtFields(s: Server, t: Server, term: nat, commit: nat)
    requires Brought(s, t, term, commit)
    ensures t.raft.role == Follower && t.raft.term == term && t.raft.commitIndex >= commit
  {
  }
}

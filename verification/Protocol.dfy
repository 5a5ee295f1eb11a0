/**
  One node of the cluster: its state under the lock, and what each handler makes
  of it. Nothing here is concurrent; module Cluster runs these functions against
  each other, and class RaftNode computes them step by step.
 */
module Protocol {
  import opened Wrappers
  import opened RaftTypes
  import opened CompactLog
  import StoreSpec

  /** The configuration in effect and the two it falls back to. */
  datatype Membership = Membership(
    members: Members,       // in effect, this node included
    bootstrap: Members,     // from the start-up flags
    snapMembers: Members,   // at the snapshot boundary, empty if unknown
    configIndex: nat,       // index of the entry in effect, if any
    joining: bool)          // waiting to become part of a configuration

  /** What a proposal's channel may carry. */
  datatype Outcome = NotLeader | Applied(result: StoreSpec.Result)

  datatype Node = Node(
    id: Id,
    role: Role,
    term: nat,
    votedFor: Option<Id>,
    leaderId: Option<Id>,
    log: RLog,
    commitIndex: nat,
    lastApplied: nat,
    nextIndex: map<Id, nat>,
    matchIndex: map<Id, nat>,
    termStart: nat,
    votes: set<Id>,                    // peers that voted for this node in its latest election
    recent: bool,                      // less than a minimal election timeout since the timer was reset
    cfg: Membership,
    waiters: map<nat, nat>,            // log index to the call that waits for it
    sent: map<nat, seq<Outcome>>)      // what has been put on each call's channel

  datatype VoteReq = VoteReq(from: Id, to: Id, preVote: bool, round: nat, term: nat, lastIndex: nat, lastTerm: nat)

  datatype AppendReq = AppendReq(
    from: Id, to: Id, call: Option<nat>, term: nat,
    prevIndex: nat, prevTerm: nat, entries: seq<Entry>, leaderCommit: nat)

  datatype VoteResp = VoteResp(term: nat, granted: bool)

  datatype AppendResp = AppendResp(term: nat, success: bool, matchIndex: nat)

  const MAX_UINT64: nat := 0xFFFF_FFFF_FFFF_FFFF

  function Peers(n: Node): set<Id> {
    n.cfg.members.Keys - {n.id}
  }

  function ClusterSize(n: Node): nat {
    |Peers(n)| + 1
  }

  function Majority(n: Node): nat {
    ClusterSize(n) / 2 + 1
  }

  /** A missing entry of an index map reads as 0. */
  function Lookup(m: map<Id, nat>, p: Id): nat {
    if p in m then m[p] else 0
  }

  /** What a call's channel has received. */
  function Received(n: Node, call: nat): seq<Outcome> {
    if call in n.sent then n.sent[call] else []
  }

  function Min(a: nat, b: nat): nat {
    if a < b then a else b
  }

  // ---- Commit rule ----

  /** Peers known to hold the log up to `idx`. */
  function Holders(n: Node, idx: nat): set<Id> {
    set p | p in n.matchIndex && n.matchIndex[p] >= idx
  }

  predicate CanCommit(n: Node, idx: nat)
    requires n.log.Valid()
  {
    n.log.TermAt(idx) == n.term && 1 + |Holders(n, idx)| >= Majority(n)
  }

  /** The largest index up to `last` that the leader may commit, or its present commit index. */
  function CommitUpTo(n: Node, last: nat): nat
    requires n.log.Valid()
  {
    if last <= n.commitIndex then n.commitIndex
    else if CanCommit(n, last) then last
    else CommitUpTo(n, last - 1)
  }

  function AdvanceCommit(n: Node): Node
    requires n.log.Valid()
  {
    n.(commitIndex := CommitUpTo(n, n.log.LastIndex()))
  }

  /** The commit index becomes the greatest index the leader may commit, or stays if there is none. */
  lemma {:induction false} CommitFound(n: Node, last: nat)
    requires n.log.Valid()
    ensures var k := CommitUpTo(n, last);
            && (k == n.commitIndex || (n.commitIndex < k <= last && CanCommit(n, k)))
            && forall j | k < j <= last && n.commitIndex < j :: !CanCommit(n, j)
  {
    hide CanCommit, RLog.Valid;
    if last > n.commitIndex && !CanCommit(n, last) {
      CommitFound(n, last - 1);
    }
  }

  // ---- Changing role ----

  /** Every waiting call learns that this node no longer leads. */
  function Flush(n: Node): Node {
    var calls := set idx | idx in n.waiters :: n.waiters[idx];
    n.(waiters := map[],
       sent := map c | c in n.sent.Keys + calls :: if c in calls then Received(n, c) + [NotLeader] else n.sent[c])
  }

  /** The node follows, in `term` if that is later than its own; a leader's waiting calls are told. */
  function BecomeFollower(n: Node, term: nat): Node {
    var f := if n.role == Leader then Flush(n) else n;
    f.(role := Follower, recent := true,
       term := if term > n.term then term else n.term,
       votedFor := if term > n.term then None else n.votedFor)
  }

  lemma BecomeFollowerFields(n: Node, t: nat)
    ensures var m, f := BecomeFollower(n, t), if n.role == Leader then Flush(n) else n;
            && m.role == Follower && m.recent && m.sent == f.sent && m.waiters == f.waiters && f.waiters.Keys <= n.waiters.Keys
            && m.term == (if t > n.term then t else n.term) && m.votedFor == (if t > n.term then None else n.votedFor)
            && m.id == n.id && m.log == n.log && m.commitIndex == n.commitIndex && m.lastApplied == n.lastApplied
            && m.cfg == n.cfg && (n.role == Leader ==> m.waiters == map[])
            && f.id == n.id && f.log == n.log && f.commitIndex == n.commitIndex && f.lastApplied == n.lastApplied
  {
  }

  /** A new leader expects its peers at the end of its log, to which it adds an empty entry of its term. */
  function TakeLead(n: Node): Node {
    var noop := Entry(n.term, n.log.LastIndex() + 1, Noop);
    n.(role := Leader, leaderId := Some(n.id),
       nextIndex := map p | p in Peers(n) :: n.log.LastIndex() + 1,
       matchIndex := map p | p in Peers(n) :: 0,
       log := n.log.Append(noop),
       termStart := noop.index)
  }

  function BecomeLeader(n: Node): Node
    requires n.log.Valid()
  {
    AdvanceCommit(TakeLead(n))
  }

  function BecomeCandidate(n: Node): Node {
    n.(role := Candidate, term := n.term + 1, votedFor := Some(n.id), leaderId := None, recent := true, votes := {})
  }

  /** A cluster of one needs no votes. */
  function StartElection(n: Node): Node
    requires n.log.Valid()
  {
    var c := BecomeCandidate(n);
    if ClusterSize(c) == 1 then BecomeLeader(c) else c
  }

  /** Does the election timer lead to a pre-vote round, or to an election in a cluster of one? */
  predicate MayCampaign(n: Node) {
    !n.cfg.joining && n.id in n.cfg.members
  }

  // ---- Votes ----

  predicate CandidateUpToDate(n: Node, req: VoteReq) {
    UpToDate(req.lastTerm, req.lastIndex, n.log.LastTerm(), n.log.LastIndex())
  }

  /** Pre-vote: would this node vote for the candidate? Its own state stays as it is. */
  function HandlePreVote(n: Node, req: VoteReq): VoteResp {
    VoteResp(n.term,
      && req.term > n.term
      && n.role != Leader
      && !(n.leaderId.Some? && n.recent)
      && CandidateUpToDate(n, req))
  }

  function HandleVote(n: Node, req: VoteReq): (Node, VoteResp) {
    var m := if req.term > n.term then BecomeFollower(n, req.term) else n;
    if req.term < m.term then (m, VoteResp(m.term, false))
    else if (m.votedFor == None || m.votedFor == Some(req.from)) && CandidateUpToDate(m, req) then
      (m.(votedFor := Some(req.from), recent := true), VoteResp(m.term, true))
    else (m, VoteResp(m.term, false))
  }

  function OnVoteResp(n: Node, req: VoteReq, resp: VoteResp): Node
    requires n.log.Valid()
  {
    if resp.term > n.term then BecomeFollower(n, resp.term)
    else if n.role != Candidate || n.term != req.term || !resp.granted then n
    else
      var m := n.(votes := n.votes + {req.to});
      if 1 + |m.votes| >= Majority(m) then BecomeLeader(m) else m
  }

  // ---- Membership derived from the log ----

  /** Peers new to a leader start from its log's end; removed ones are forgotten. */
  function ApplyConfig(n: Node, members: Members, index: nat): (r: Node)
    ensures r.log == n.log
  {
    var m := n.(cfg := n.cfg.(members := members, configIndex := index,
                              joining := n.cfg.joining && n.id !in members));
    if n.role != Leader then m
    else
      var added := Peers(m) - n.nextIndex.Keys;
      m.(nextIndex := map p | p in Peers(m) :: if p in added then n.log.LastIndex() + 1 else n.nextIndex[p],
         matchIndex := map p | p in n.matchIndex.Keys + added && (p in Peers(m) || p !in n.nextIndex) ::
           if p in added then 0 else n.matchIndex[p])
  }

  function RecomputeConfig(n: Node): (r: Node)
    ensures r.log == n.log
  {
    match n.log.LatestConfig()
    case Some(e) => ApplyConfig(n, e.payload.members, e.index)
    case None =>
      if |n.cfg.snapMembers| > 0 then ApplyConfig(n, n.cfg.snapMembers, n.log.snapIndex)
      else ApplyConfig(n, n.cfg.bootstrap, 0)
  }

  function AcceptEntry(n: Node, e: Entry): (r: Node)
    ensures r.log == n.log.Append(e)
  {
    var m := n.(log := n.log.Append(e));
    if e.payload.Config? then ApplyConfig(m, e.payload.members, e.index) else m
  }

  // ---- Replication ----

  function MergeEntry(n: Node, e: Entry): (m: Node)
    requires n.log.Valid() && e.index <= n.log.LastIndex() + 1
    ensures m.log == MergeOne(n.log, e)
  {
    if e.index <= n.log.snapIndex then n
    else if e.index <= n.log.LastIndex() && n.log.TermAt(e.index) == e.term then n
    else if e.index <= n.log.LastIndex() then
      var m := n.(log := n.log.TruncateFrom(e.index));
      AcceptEntry(if e.index <= n.cfg.configIndex then RecomputeConfig(m) else m, e)
    else AcceptEntry(n, e)
  }

  function MergeEntries(n: Node, es: seq<Entry>): (m: Node)
    requires n.log.Valid() && Fits(n.log, es)
    ensures m.log == Merge(n.log, es)
  {
    if |es| == 0 then n
    else MergeEntry(MergeEntries(n, es[..|es| - 1]), es[|es| - 1])
  }

  // ---- What the handlers' helpers leave alone ----

  /** Of a node only the log, the configuration and a leader's index maps differ. */
  predicate Touches(n: Node, m: Node) {
    m == n.(log := m.log, cfg := m.cfg, nextIndex := m.nextIndex, matchIndex := m.matchIndex)
  }

  lemma ConfigTouches(n: Node, members: Members, index: nat)
    ensures Touches(n, ApplyConfig(n, members, index))
  {
  }

  lemma RecomputeTouches(n: Node)
    ensures Touches(n, RecomputeConfig(n))
  {
    hide ApplyConfig, RLog.LatestConfig;
    if n.log.LatestConfig().Some? {
      ConfigTouches(n, n.log.LatestConfig().value.payload.members, n.log.LatestConfig().value.index);
    }
    ConfigTouches(n, n.cfg.snapMembers, n.log.snapIndex);
    ConfigTouches(n, n.cfg.bootstrap, 0);
  }

  lemma MergeOneTouches(n: Node, e: Entry)
    requires n.log.Valid() && e.index <= n.log.LastIndex() + 1
    ensures Touches(n, MergeEntry(n, e))
  {
    hide MergeOne, ApplyConfig, RecomputeConfig, RLog.Append, RLog.TruncateFrom, RLog.TermAt, RLog.LatestConfig;
    var t := n.(log := n.log.TruncateFrom(e.index));
    RecomputeTouches(t);
    var m := if e.index <= n.cfg.configIndex then RecomputeConfig(t) else t;
    if e.payload.Config? {
      ConfigTouches(m.(log := m.log.Append(e)), e.payload.members, e.index);
      ConfigTouches(n.(log := n.log.Append(e)), e.payload.members, e.index);
    }
  }

  lemma {:induction false} MergeTouches(n: Node, es: seq<Entry>)
    requires n.log.Valid() && Fits(n.log, es)
    ensures Touches(n, MergeEntries(n, es)) && MergeEntries(n, es).log.snapIndex == n.log.snapIndex
  {
    hide MergeOne, MergeEntry;
    if |es| > 0 {
      var init, e := es[..|es| - 1], es[|es| - 1];
      MergeTouches(n, init);
      MergeOneTouches(MergeEntries(n, init), e);
    }
  }

  /** Does the log lack the entry the request builds on? */
  predicate Mismatch(n: Node, req: AppendReq)
    requires n.log.Valid()
  {
    req.prevIndex > 0 && (n.log.LastIndex() < req.prevIndex || n.log.TermAt(req.prevIndex) != req.prevTerm)
  }

  /** What a sender's requests satisfy: consecutive entries right after the entry they build on. */
  predicate WellFormed(req: AppendReq) {
    Contiguous(req.entries, req.prevIndex + 1)
  }

  /** Every request of the current term, even a refused one, makes the sender the leader and resets the timer. */
  function Acknowledge(n: Node, req: AppendReq): Node {
    var m := if req.term > n.term || n.role != Follower then BecomeFollower(n, req.term) else n;
    m.(leaderId := Some(req.from), recent := true)
  }

  lemma AcknowledgeFields(n: Node, req: AppendReq)
    ensures var m := Acknowledge(n, req); m.log == n.log && m.commitIndex == n.commitIndex && m.lastApplied == n.lastApplied
  {
  }

  /** The commit index moves to the leader's, but not past the end of the log. */
  function LearnCommit(n: Node, leaderCommit: nat): Node {
    if leaderCommit > n.commitIndex then n.(commitIndex := Min(leaderCommit, n.log.LastIndex())) else n
  }

  function HandleAppend(n: Node, req: AppendReq): (Node, AppendResp)
    requires n.log.Valid() && WellFormed(req)
  {
    if req.term < n.term then (n, AppendResp(n.term, false, n.log.LastIndex()))
    else
      var m := Acknowledge(n, req);
      if Mismatch(m, req) then
        (m, AppendResp(m.term, false, Min(m.log.LastIndex(), req.prevIndex - 1)))
      else
        (LearnCommit(MergeEntries(m, req.entries), req.leaderCommit),
         AppendResp(m.term, true, req.prevIndex + |req.entries|))
  }

  /** The leader's request to a peer; none while the peer needs entries that are compacted away. */
  function BuildAppend(n: Node, peer: Id): Option<AppendReq>
    requires n.log.Valid()
  {
    var next := Lookup(n.nextIndex, peer);
    if next <= n.log.snapIndex then None
    else Some(AppendReq(n.id, peer, None, n.term, next - 1, n.log.TermAt(next - 1), n.log.From(next), n.commitIndex))
  }

  /** The empty request that only asks whether the peer still accepts this leader. */
  function BuildProbe(n: Node, peer: Id, call: nat, term: nat): AppendReq {
    AppendReq(n.id, peer, Some(call), term, 0, 0, [], 0)
  }

  /** After a rejection the leader goes back to the follower's hint, at least by one, at most to 1. */
  function BackOff(next: nat, hint: nat): nat {
    var capped := if hint + 1 >= next then (if next == 0 then MAX_UINT64 else next - 1) else hint + 1;
    if capped < 1 then 1 else capped
  }

  function OnAppendResp(n: Node, req: AppendReq, resp: AppendResp): Node
    requires n.log.Valid()
  {
    if resp.term > n.term then BecomeFollower(n, resp.term)
    else if n.role != Leader || n.term != req.term then n
    else if resp.success then
      var reached := req.prevIndex + |req.entries|;
      var held := if reached > Lookup(n.matchIndex, req.to) then reached else Lookup(n.matchIndex, req.to);
      AdvanceCommit(n.(matchIndex := if reached > Lookup(n.matchIndex, req.to) then n.matchIndex[req.to := reached] else n.matchIndex,
                       nextIndex := n.nextIndex[req.to := held + 1]))
    else n.(nextIndex := n.nextIndex[req.to := BackOff(Lookup(n.nextIndex, req.to), resp.matchIndex)])
  }

  // ---- Proposals ----

  /** A leader appends the command; `call` waits for the entry's result. */
  function Propose(n: Node, payload: Payload, call: nat): Node
    requires n.log.Valid()
  {
    var e := Entry(n.term, n.log.LastIndex() + 1, payload);
    AdvanceCommit(n.(log := n.log.Append(e), waiters := n.waiters[e.index := call]))
  }

  function Deliver(n: Node, call: nat, o: Outcome): Node {
    n.(sent := n.sent[call := Received(n, call) + [o]])
  }

  // ---- Restart ----

  /** A node starts from its durable term, vote, log and configuration, and from what its store had applied. */
  function Restart(n: Node, applied: nat): Node {
    var start := if n.log.snapIndex > applied then n.log.snapIndex else applied;
    n.(role := Follower, leaderId := None, commitIndex := start, lastApplied := start,
       nextIndex := map[], matchIndex := map[], termStart := 0, votes := {}, recent := true, waiters := map[])
  }
}

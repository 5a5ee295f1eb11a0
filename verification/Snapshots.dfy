/**
  Snapshots at one node: taking one compacts the log, and a node that is sent one
  puts it in the place of the log it lacks.
 */
module Snapshots {
  import opened Wrappers
  import opened RaftTypes
  import opened CompactLog
  import opened Protocol
  import StoreSpec

  /** A snapshot of the state machine at a log index; without `members` the configuration is unknown. */
  datatype Snapshot = Snapshot(index: nat, term: nat, data: StoreSpec.Data, members: Members)

  datatype InstallReq = InstallReq(from: Id, to: Id, term: nat, snapshot: Snapshot)

  /** The sender leads, whatever comes of the request. */
  function Heard(n: Node, req: InstallReq): Node {
    Acknowledge(n, AppendReq(req.from, req.to, None, req.term, 0, 0, [], 0))
  }

  /** A snapshot is taken in only if it reaches past the commit index. */
  predicate Installs(n: Node, req: InstallReq) {
    req.term >= n.term && req.snapshot.index > n.commitIndex
  }

  /** The node's log, positions and configuration once the snapshot is saved and restored. */
  function Install(n: Node, s: Snapshot): Node
    requires n.log.Valid()
  {
    var m := n.(log := n.log.CompactTo(s.index, s.term), commitIndex := s.index, lastApplied := s.index);
    if |s.members| == 0 then m
    else
      var k := m.(cfg := m.cfg.(snapMembers := s.members));
      if s.index >= k.cfg.configIndex then ApplyConfig(k, s.members, s.index) else k
  }

  /** The handler's effect on the node, and the term it answers. */
  function HandleInstall(n: Node, req: InstallReq): (Node, nat)
    requires n.log.Valid()
  {
    if req.term < n.term then (n, n.term)
    else
      var m := Heard(n, req);
      (if Installs(m, req) then Install(m, req.snapshot) else m, m.term)
  }

  /**
    A snapshot in an earlier term than the node's changes nothing. Any other leaves the
    larger of the two commit indices; log and apply index change only if it reaches
    past the commit index, and then start from it.
   */
  lemma InstallMoves(n: Node, req: InstallReq)
    requires n.log.Valid()
    ensures var (m, term) := HandleInstall(n, req);
            if req.term < n.term then m == n && term == n.term
            else
              && m.commitIndex == (if req.snapshot.index > n.commitIndex then req.snapshot.index else n.commitIndex)
              && (req.snapshot.index <= n.commitIndex ==> m.log == n.log && m.lastApplied == n.lastApplied && m.cfg == n.cfg)
              && (req.snapshot.index > n.commitIndex ==> m.lastApplied == req.snapshot.index && m.log.snapIndex >= req.snapshot.index)
  {
    hide Flush, RLog.Valid, Install;
    BecomeFollowerFields(n, req.term);
    InstallFields(Heard(n, req), req.snapshot);
  }

  lemma InstallFields(n: Node, s: Snapshot)
    requires n.log.Valid()
    ensures var m := Install(n, s); m.commitIndex == m.lastApplied == s.index && m.log == n.log.CompactTo(s.index, s.term)
  {
    hide RLog.Valid, RLog.CompactTo;
  }

  /** Enough has been applied since the last snapshot, and the boundary's term is known. */
  predicate SnapshotDue(n: Node, threshold: nat)
    requires n.log.Valid()
  {
    n.lastApplied != 0 && n.lastApplied >= n.log.snapIndex + threshold && n.log.TermAt(n.lastApplied) != 0
  }

  /** Where no entry has term 0, a snapshot is due exactly when compacting to it drops at least so many entries. */
  lemma DueIff(n: Node, threshold: nat)
    requires n.log.Valid() && n.log.snapIndex <= n.lastApplied <= n.log.LastIndex()
    requires n.log.snapTerm == 0 ==> n.log.snapIndex == 0
    requires forall e | e in n.log.entries :: e.term > 0
    ensures SnapshotDue(n, threshold) <==>
              n.lastApplied > 0 && |n.log.entries| - |n.log.CompactTo(n.lastApplied, n.term).entries| >= threshold
  {
    if n.lastApplied > n.log.snapIndex {
      assert n.log.At(n.lastApplied).value in n.log.entries;
    }
  }

  /** A snapshot at `index` has been saved; one that came too late is dropped. */
  function Compact(n: Node, index: nat, term: nat, members: Members): Node
    requires n.log.Valid()
  {
    if index <= n.log.snapIndex then n
    else n.(cfg := n.cfg.(snapMembers := members), log := n.log.CompactTo(index, term))
  }

  /** The peer has the leader's snapshot. */
  function OnInstallResp(n: Node, req: InstallReq, respTerm: nat): Node {
    if respTerm > n.term then BecomeFollower(n, respTerm)
    else if n.role != Leader || n.term != req.term then n
    else
      var held := if req.snapshot.index > Lookup(n.matchIndex, req.to) then req.snapshot.index else Lookup(n.matchIndex, req.to);
      n.(matchIndex := if req.snapshot.index > Lookup(n.matchIndex, req.to) then n.matchIndex[req.to := held] else n.matchIndex,
         nextIndex := n.nextIndex[req.to := held + 1])
  }

  /** A start from what is on disk: term, vote, snapshot boundary and log; the configuration is derived from them. */
  function Boot(id: Id, term: nat, votedFor: Option<Id>, log: RLog, snapMembers: Members, bootstrap: Members,
                join: bool, applied: nat): Node
    requires log.Valid()
  {
    var start := if log.snapIndex > applied then log.snapIndex else applied;
    var (members, index) :=
      match log.LatestConfig()
      case Some(e) => (e.payload.members, e.index)
      case None => if |snapMembers| > 0 then (snapMembers, log.snapIndex) else (bootstrap, 0);
    Node(id, Follower, term, votedFor, None, log, start, start, map[], map[], 0, {}, true,
         Membership(members, bootstrap, snapMembers, index, join), map[], map[])
  }
}

/**
  Linearizable reads (section 6.4 of Ongaro's dissertation): once ReadIndex has
  returned, the node's store reflects everything that was committed, and every
  write that had been answered, anywhere in the cluster when the call began.
 */
module Reads {
  import opened Wrappers
  import opened RaftTypes
  import opened CompactLog
  import opened Protocol
  import opened StoreSpec
  import opened Cluster
  import opened Simulation
  import opened Safety
  import opened Proposals
  import C = Consensus
  import R = Reigns

  /** A ReadIndex call of node `id`, begun by step `s` and returned without error by step `e`. */
  ghost predicate IsRead(r: Run, s: nat, e: nat, id: Id, call: nat) {
    && |r.states| == |r.actions| + 1 && s < e < |r.actions|
    && r.actions[s] == ReadCapture(id) && call == r.states[s].calls
    && r.actions[e] == ReadReturn(id, call)
  }

  ghost predicate NoCrash(r: Run, e: nat, f: nat, id: Id) {
    forall i | e <= i < f && i < |r.actions| :: !Crashes(r.actions[i], id)
  }

  /** The node's store is the fold of a prefix of its log that covers at least `k` entries, all committed. */
  ghost predicate StoreCovers(s: Server, k: nat) {
    var log := s.raft.log.entries;
    exists n :: k <= n <= s.raft.commitIndex <= |log| && s.store == StoreAfter(log[..n])
  }

  /** No leader had committed past the read index when the call began. */
  lemma CapturedEnough(x: Context, n: Node, call: nat, read: ReadCall, u: nat)
    requires ReadOk(x, n.id, call, read) && n.id in x.ids && n.cfg.members.Keys == x.ids
    requires C.Inv(x.captures[call]) && x.captures[call].members.Keys == x.ids
    requires 1 + |read.acks| >= Majority(n) && u in x.captures[call].reigns
    ensures x.captures[call].reigns[u].commit <= read.readIndex
  {
    hide C.Inv, C.Safe, C.ReignShape, C.Extends;
    var k, t := x.captures[call], read.term;
    var q := read.acks + {n.id};
    C.InvReign(k, u);
    OthersSize(x.ids, n.id);
    assert |q| == |read.acks| + 1;
    assert IsQuorum(q, x.ids);
    AnswererItself(k, n.id);
    assert forall v | v in q :: NotElector(k, v, t);
    var v := QuorumsMeet(q, k.reigns[u].quorum, x.ids);
    if u < t {
      R.ReignSafe(k, u);
      C.SafeInReign(k, u, k.reigns[u].commit, t);
    }
  }

  lemma AnswererItself(k: History, id: Id)
    requires C.Inv(k) && id in k.members
    ensures NotElector(k, id, k.members[id].term)
  {
  }

  /** What the run says of a read that returns: its index is applied, and no leader had committed past it. */
  lemma ReadIndexCovers(r: Run, hs: seq<History>, caps: seq<map<nat, History>>, s: nat, e: nat, id: Id, call: nat, u: nat)
    requires IsRun(r) && Follows(r, hs, caps) && IsRead(r, s, e, id, call) && u in hs[s].reigns
    ensures Present(r, e, id) && hs[s].reigns[u].commit <= NodeAt(r, e, id).lastApplied
  {
    hide IsRun, Related, Later, ServerOk, C.Inv, C.MemberOk, C.Extends, Enabled, Sound, ReadOk;
    StepOf(r, e);
    Returns(r.states[e], id, call);
    NodeFacts(r, hs, caps, e, e, id);
    LaterExtends(r, hs, caps, s + 1, e);
    LaterExtends(r, hs, caps, s, e);
    CaptureFacts(hs[e], caps[e], r.states[e], call);
    var x, server := ContextOf(r.states[e], caps[e]), r.states[e].servers[id];
    Parts(hs[e], x, server);
    ReadFact(hs[e], x, server, call);
    CapturedEnough(x, server.raft, call, server.readCalls[call], u);
  }

  lemma Returns(c: Cluster, id: Id, call: nat)
    requires Enabled(c, ReadReturn(id, call))
    ensures id in c.servers && call in c.servers[id].readCalls && MayReturn(c.servers[id], call)
  {
  }

  lemma CaptureFacts(h: History, caps: map<nat, History>, c: Cluster, call: nat)
    requires Related(h, caps, c) && call in caps
    ensures C.Inv(caps[call]) && caps[call].members.Keys == h.members.Keys
  {
    hide C.Inv, ServerOk;
  }

  lemma ReadFact(h: History, x: Context, s: Server, call: nat)
    requires ReadsOk(x, s) && Linked(h, x.ids, s.raft) && call in s.readCalls
    ensures ReadOk(x, s.raft.id, call, s.readCalls[call])
    ensures h.members.Keys == x.ids && s.raft.id in x.ids && s.raft.cfg.members.Keys == x.ids
  {
  }

  lemma {:induction false} AppliedGrows(r: Run, e: nat, f: nat, id: Id)
    requires IsRun(r) && e <= f < |r.states| && Present(r, e, id) && NoCrash(r, e, f, id)
    ensures Present(r, f, id) && NodeAt(r, e, id).lastApplied <= NodeAt(r, f, id).lastApplied
    decreases f - e
  {
    hide IsRun;
    if e < f {
      RunLength(r);
      PositionsGrow(r, e, id);
      AppliedGrows(r, e + 1, f, id);
    }
  }

  /** The store is never behind the node's apply index, and never ahead of its commit index. */
  lemma StoreCovered(r: Run, i: nat, id: Id)
    requires IsRun(r) && Present(r, i, id)
    ensures StoreCovers(r.states[i].servers[id], NodeAt(r, i, id).lastApplied)
  {
    hide IsRun, Follows, ServerOk, C.Inv, C.MemberOk, C.Extends, ResultAt, StoreAfter, Received;
    var hs, caps := RunSimulated(r);
    NodeFacts(r, hs, caps, i, i, id);
    var s, x := r.states[i].servers[id], ContextOf(r.states[i], caps[i]);
    Parts(hs[i], x, s);
    var n := if s.applying.Some? && s.applying.value.result.Some? then s.raft.lastApplied + 1 else s.raft.lastApplied;
    assert s.store == StoreAfter(s.raft.log.entries[..n]);
  }

  /**
    Whatever node `m` regarded as committed when the read began is applied at the
    reading node from the moment ReadIndex returns, whoever leads by then.
   */
  lemma LinearizableRead(r: Run, s: nat, e: nat, id: Id, call: nat, f: nat, i: nat, m: Id)
    requires IsRun(r) && IsRead(r, s, e, id, call) && Present(r, i, m) && i <= s
    requires e <= f < |r.states| && NoCrash(r, e, f, id)
    ensures Present(r, f, id) && CommitAt(r, i, m) <= NodeAt(r, f, id).lastApplied
    ensures Agree(LogAt(r, i, m), LogAt(r, f, id), CommitAt(r, i, m))
    ensures StoreCovers(r.states[f].servers[id], CommitAt(r, i, m))
  {
    hide IsRun, Follows, ServerOk, C.Inv, C.MemberOk, C.Safe, C.Extends;
    var hs, caps := RunSimulated(r);
    RunLength(r);
    if CommitAt(r, i, m) > 0 {
      NodeFacts(r, hs, caps, i, s, m);
      var t := Voucher(hs[i], hs[s], m);
      CommitsGrow(hs[i], hs[s], t);
      ReadIndexCovers(r, hs, caps, s, e, id, call, t);
    } else {
      ReaderPresent(r, e, id, call);
    }
    AppliedGrows(r, e, f, id);
    PositionOrder(r, f, id);
    StateMachineSafety(r, i, m, f, id, CommitAt(r, i, m));
    StoreCovered(r, f, id);
    CoversLess(r.states[f].servers[id], NodeAt(r, f, id).lastApplied, CommitAt(r, i, m));
  }

  lemma CoversLess(s: Server, n: nat, k: nat)
    requires StoreCovers(s, n) && k <= n
    ensures StoreCovers(s, k)
  {
  }

  lemma ReaderPresent(r: Run, e: nat, id: Id, call: nat)
    requires IsRun(r) && e < |r.actions| && r.actions[e] == ReadReturn(id, call)
    ensures Present(r, e, id)
  {
    hide IsRun, Sound;
    StepOf(r, e);
    Returns(r.states[e], id, call);
  }

  lemma CommitsGrow(h: History, g: History, t: nat)
    requires C.Extends(h, g) && t in h.reigns
    ensures t in g.reigns && h.reigns[t].commit <= g.reigns[t].commit
  {
  }

  /**
    Every write that had been answered, by any node, when the read began is applied
    at the reading node from the moment ReadIndex returns.
   */
  lemma ReadSeesWrites(r: Run, s: nat, e: nat, id: Id, call: nat, f: nat, i: nat, m: Id, w: nat, res: Result)
    requires IsRun(r) && IsRead(r, s, e, id, call) && Present(r, i, m) && i <= s
    requires Returned(r, i, m, w, res)
    requires e <= f < |r.states| && NoCrash(r, e, f, id)
    ensures Present(r, f, id) && w in r.states[i].proposals
    ensures var written := r.states[i].proposals[w].entry;
            && 0 < written.index <= NodeAt(r, f, id).lastApplied && written.index <= |LogAt(r, f, id)|
            && LogAt(r, f, id)[written.index - 1] == written
            && StoreCovers(r.states[f].servers[id], written.index)
  {
    hide IsRun, StoreCovers, Received, ResultAt;
    RunLength(r);
    var j := CommittedFirst(r, i, m, w, res);
    ProposalsLast(r, j, i, w);
    var k := r.states[i].proposals[w].entry.index;
    LinearizableRead(r, s, e, id, call, f, j, m);
    PositionOrder(r, f, id);
    OwnResult(r, i, m, w, res, f, id);
    CoversLess(r.states[f].servers[id], CommitAt(r, j, m), k);
  }
}

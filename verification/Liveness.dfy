/**
  What the protocol can always still do. From every state that a run of the cluster
  reaches, however much was lost, delayed or crashed before, some way on without further
  crashes makes all nodes apply one log, answers a call, and answers a read.
 */
module Liveness {
  import opened Wrappers
  import opened RaftTypes
  import opened CompactLog
  import opened Protocol
  import opened StoreSpec
  import opened Cluster
  import opened Simulation
  import opened Safety
  import opened Reads
  import opened ReadReturns
  import opened Calls
  import opened Trails
  import opened Progress
  import opened Delivery

  /** From every reachable state: one leader, one log, applied by all. */
  lemma ClusterConverges(r: Run) returns (q: Run, id: Id)
    requires IsRun(r) && Now(r).servers != map[] && AllMembers(Now(r))
    ensures Onward(r, q) && Converged(Now(q), id) && Now(q).servers.Keys == Now(r).servers.Keys
  {
    hide IsRun, Prolongs, Converged;
    var e;
    e, id := SomeoneLeads(r);
    q := Converges(e, id);
    WayOn(r, e, q);
  }

  // ---- Calls ----

  /** At a node that has nothing in hand and has applied its log no call waits: each was told, or gave up, or its node crashed since. */
  lemma NoCallWaits(r: Run, s: nat, id: Id, command: Command)
    requires IsRun(r) && s < |r.actions| && r.actions[s] == Submit(id, command) && NoCrash(r, s + 1, |r.actions|, id)
    requires id in Now(r).servers && Now(r).servers[id].applying == None
    requires NodeOf(r, id).role != Leader || NodeOf(r, id).lastApplied >= |NodeOf(r, id).log.entries|
    ensures Present(r, s, id)
    ensures |Received(NodeOf(r, id), r.states[s].calls)| == 1
            || GaveUp(r, s, |r.actions|, id, r.states[s].calls, Appended(r, s, id, command))
  {
    hide IsRun, GaveUp, Received, Waits;
    RunLength(r);
    CallAccounted(r, s, id, command, |r.actions|);
  }

  lemma ProposeFields(n: Node, payload: Payload, call: nat)
    requires n.log.Valid()
    ensures var m := Propose(n, payload, call); m.role == n.role && m.term == n.term && m.id == n.id
  {
    hide CommitUpTo;
  }

  lemma ReignsOn(c: Cluster, d: Cluster, id: Id)
    requires id in c.servers && id in d.servers && Reigns(c, id) && Kept(c, d, {id})
    requires d.servers[id].raft.role == Leader && d.servers[id].raft.term == c.servers[id].raft.term
    ensures Reigns(d, id)
  {
  }

  /** A leader takes the call in and has its log applied everywhere. */
  lemma CallTaken(r: Run, command: Command) returns (e: Run, q: Run, id: Id, s: nat)
    requires IsRun(r) && Now(r).servers != map[] && AllMembers(Now(r))
    ensures Undisturbed(r, q) && Undisturbed(e, q) && Converged(Now(q), id) && id in Now(q).servers && id in Now(e).servers
    ensures |r.actions| <= s == |e.actions| < |q.actions| && |q.states| == |q.actions| + 1 && q.actions[s] == Submit(id, command)
    ensures q.states[s] == Now(e) && NodeOf(e, id).term == NodeOf(q, id).term
  {
    hide IsRun, Propose, RLog.Valid, Kept, Latest, Converged;
    e, id := SomeoneLeads(r);
    s := |e.actions|;
    var f := Submits(e, id, command);
    KeptKeys(Now(e), Now(f), {id});
    ProposeFields(NodeOf(e, id), Normal(command), Now(e).calls);
    ReignsOn(Now(e), Now(f), id);
    q := Converges(f, id);
    CalmUndisturbed(f, q);
    CalmUndisturbed(r, e);
    UndisturbedOn(e, f, q);
    UndisturbedOn(r, e, q);
    RunLength(q);
    RunLength(e);
  }

  /**
    From every reachable state some way on elects a leader that takes a call in, and the
    call gets its result, while all nodes come to apply one log.
   */
  lemma CallAnswered(r: Run, command: Command) returns (q: Run, id: Id, s: nat, result: Result)
    requires IsRun(r) && Now(r).servers != map[] && AllMembers(Now(r))
    ensures Undisturbed(r, q) && Converged(Now(q), id) && id in Now(q).servers
    ensures |r.actions| <= s < |q.actions| && s < |q.states| && q.actions[s] == Submit(id, command)
    ensures Received(NodeOf(q, id), q.states[s].calls) == [Applied(result)]
  {
    hide IsRun, Begins, Received, GaveUp, Accounted, Converged;
    var e;
    e, q, id, s := CallTaken(r, command);
    LeaderDone(Now(q), id);
    NoCallWaits(q, s, id, command);
    StaysCalm(e, q, s, id, command);
    CallAccounted(q, s, id, command, |q.actions|);
    ToldApplied(q, s, id, command);
    result := Received(NodeOf(q, id), q.states[s].calls)[0].result;
  }

  lemma LeaderDone(c: Cluster, id: Id)
    requires Converged(c, id)
    ensures id in c.servers && c.servers[id].applying == None && c.servers[id].raft.role == Leader
    ensures c.servers[id].raft.lastApplied >= |c.servers[id].raft.log.entries|
  {
    hide StoreAfter;
    assert InStep(c, id, id);
  }

  /** Nobody gives up on a calm way. */
  lemma StaysCalm(e: Run, q: Run, s: nat, id: Id, command: Command)
    requires Undisturbed(e, q) && s == |e.actions| && Present(q, s, id)
    ensures !GaveUp(q, s, |q.actions|, id, q.states[s].calls, Appended(q, s, id, command)) && NoCrash(q, s + 1, |q.actions|, id)
  {
    hide IsRun;
    forall j | s < j < |q.actions|
      ensures Patient(q.actions[j])
    {
    }
  }

  lemma ToldApplied(q: Run, s: nat, id: Id, command: Command)
    requires IsRun(q) && s < |q.actions| && q.actions[s] == Submit(id, command) && |q.states| == |q.actions| + 1
    requires Present(q, s, id) && Present(q, |q.actions|, id)
    requires Accounted(q, s, |q.actions|, id, q.states[s].calls, Appended(q, s, id, command))
    requires NodeOf(q, id).role == Leader && NodeOf(q, id).term == NodeAt(q, s, id).term
    requires |Received(NodeOf(q, id), q.states[s].calls)| == 1
    ensures Received(NodeOf(q, id), q.states[s].calls)[0].Applied?
  {
    hide IsRun, Received, GaveUp, Sorted;
    var told := Received(NodeOf(q, id), q.states[s].calls);
    assert told == [told[0]];
  }

  /** The call made in step `s` has been told its one outcome, or gave up, or its node has crashed since. */
  ghost predicate Resolved(r: Run, s: nat)
    requires IsRun(r) && s < |r.actions| && r.actions[s].Submit?
  {
    var id, call := r.actions[s].id, r.states[s].calls;
    NoCrash(r, s + 1, |r.actions|, id) ==>
      && id in Now(r).servers && Present(r, s, id)
      && (|Received(NodeOf(r, id), call)| == 1 || GaveUp(r, s, |r.actions|, id, call, Appended(r, s, id, r.actions[s].command)))
  }

  /** From every reachable state some way on leaves no call ever made without its outcome. */
  lemma EveryCallSettles(r: Run) returns (q: Run)
    requires IsRun(r) && Now(r).servers != map[] && AllMembers(Now(r))
    ensures Onward(r, q) && forall s | 0 <= s < |q.actions| && q.actions[s].Submit? :: Resolved(q, s)
  {
    hide IsRun, Prolongs, Converged, GaveUp, Received, NoCrash;
    var id;
    q, id := ClusterConverges(r);
    RunLength(q);
    forall s | 0 <= s < |q.actions| && q.actions[s].Submit?
      ensures Resolved(q, s)
    {
      if NoCrash(q, s + 1, |q.actions|, q.actions[s].id) {
        CallAccounted(q, s, q.actions[s].id, q.actions[s].command, |q.actions|);
        NobodyWaits(Now(q), id, q.actions[s].id);
        NoCallWaits(q, s, q.actions[s].id, q.actions[s].command);
      }
    }
  }

  lemma NobodyWaits(c: Cluster, id: Id, j: Id)
    requires Converged(c, id) && j in c.servers
    ensures c.servers[j].applying == None
    ensures c.servers[j].raft.role != Leader || c.servers[j].raft.lastApplied >= |c.servers[j].raft.log.entries|
  {
    hide StoreAfter;
    assert InStep(c, id, j);
  }

  // ---- Reads ----

  /** The read at leader `id` has asked every node of `ids`. */
  ghost predicate Asking(c: Cluster, id: Id, call: nat, ids: set<Id>) {
    && id in c.servers && call in c.servers[id].readCalls && c.servers[id].readCalls[call].confirming
    && c.servers[id].raft.id == id && c.servers[id].raft.term == c.servers[id].readCalls[call].term
    && forall p | p in ids :: p in c.servers && AppendRequest(BuildProbe(c.servers[id].raft, p, call, c.servers[id].raft.term)) in c.net
  }

  /** Only confirmations have come in at `id`. */
  predicate Confirmed(s: Server, t: Server, call: nat, ids: set<Id>)
    requires call in s.readCalls
  {
    t == s.(readCalls := s.readCalls[call := s.readCalls[call].(acks := s.readCalls[call].acks + ids)])
  }

  lemma {:induction false} AllConfirm(r: Run, id: Id, call: nat, ids: set<Id>) returns (q: Run)
    requires IsRun(r) && Reigns(Now(r), id) && Asking(Now(r), id, call, ids) && id !in ids
    ensures Onward(r, q) && id in Now(q).servers && Confirmed(Now(r).servers[id], Now(q).servers[id], call, ids)
    decreases |ids|
  {
    hide IsRun, Prolongs, Reigns, Kept, BuildProbe;
    if ids == {} {
      NoWay(r);
      q := r;
      NoneConfirm(Now(r).servers[id], call);
    } else {
      var p :| p in ids;
      var rest := ids - {p};
      assert ids == rest + {p};
      var e := OneConfirms(r, id, call, p, rest);
      q := AllConfirm(e, id, call, rest);
      WayOn(r, e, q);
      ConfirmTwice(Now(r).servers[id], Now(e).servers[id], Now(q).servers[id], call, p, rest);
    }
  }

  lemma NoneConfirm(s: Server, call: nat)
    requires call in s.readCalls
    ensures Confirmed(s, s, call, {})
  {
    assert s.readCalls[call].acks + {} == s.readCalls[call].acks;
  }

  lemma ConfirmTwice(s: Server, t: Server, u: Server, call: nat, p: Id, rest: set<Id>)
    requires call in s.readCalls && Confirmed(s, t, call, {p}) && Confirmed(t, u, call, rest)
    ensures Confirmed(s, u, call, rest + {p})
  {
    assert s.readCalls[call].acks + {p} + rest == s.readCalls[call].acks + (rest + {p});
  }

  lemma OneConfirms(r: Run, id: Id, call: nat, p: Id, rest: set<Id>) returns (q: Run)
    requires IsRun(r) && Reigns(Now(r), id) && Asking(Now(r), id, call, rest + {p}) && id !in rest && p != id
    ensures Onward(r, q) && id in Now(q).servers && Confirmed(Now(r).servers[id], Now(q).servers[id], call, {p})
    ensures Reigns(Now(q), id) && Asking(Now(q), id, call, rest)
  {
    hide IsRun, Prolongs, HandleAppend, RLog.Valid, WellFormed;
    var req := BuildProbe(NodeOf(r, id), p, call, NodeOf(r, id).term);
    assert p in rest + {p};
    PeerAnswers(r, req);
    var e := Heard(r, req);
    q := ReadHears(e, req, HandleAppend(NodeOf(r, p), req).1, call);
    WayOn(r, e, q);
  }

  /**
    From every reachable state some way on leads to a ReadIndex call that returns, and
    nobody need write for it.
   */
  lemma ReadAnswered(r: Run) returns (q: Run, id: Id, s: nat, e: nat)
    requires IsRun(r) && Now(r).servers != map[] && AllMembers(Now(r))
    ensures Onward(r, q) && |r.actions| <= s < e < |q.actions| && s < |q.states|
    ensures q.actions[s] == ReadCapture(id) && q.actions[e] == ReadReturn(id, q.states[s].calls)
  {
    hide IsRun, Prolongs, Kept, Converged;
    var l;
    l, id := ClusterConverges(r);
    s := |l.actions|;
    LeaderDone(Now(l), id);
    var f := ReadConfirmed(l, id);
    e := |f.actions|;
    q := ReadEnds(f, id, Now(l).calls);
    WayOn(r, l, f);
    WayOn(r, f, q);
    ReadTimes(r, l, f, q);
  }

  lemma ReadTimes(r: Run, l: Run, f: Run, q: Run)
    requires Onward(r, l) && Onward(l, f) && Onward(f, q) && |f.actions| > |l.actions| && |q.actions| > |f.actions|
    ensures |q.states| > |l.actions| >= |r.actions| && q.states[|l.actions|] == Now(l) && q.actions[|l.actions|] == f.actions[|l.actions|]
  {
  }

  /** A leader that has applied its log begins a read: no more than that is captured, and in its own term. */
  lemma ReadOpened(r: Run, id: Id) returns (q: Run)
    requires IsRun(r) && id in Now(r).servers && Now(r).servers[id].raft.role == Leader
    ensures Onward(r, q) && |q.actions| == |r.actions| + 1 && q.actions[|r.actions|] == ReadCapture(id) && Kept(Now(r), Now(q), {id})
    ensures id in Now(q).servers && NodeOf(q, id) == NodeOf(r, id) && Now(r).calls in Now(q).servers[id].readCalls
    ensures var read := Now(q).servers[id].readCalls[Now(r).calls];
            && read.readIndex <= |NodeOf(r, id).log.entries| && read.term == NodeOf(r, id).term && read.acks == {}
            && read.confirming == (|Now(r).servers| == 1)
  {
    hide IsRun, Prolongs;
    q := ReadBegins(r, id);
    RunLength(r);
    RunLength(q);
    FirstNow(r, q);
    var k := CaptureIs(q, |r.actions|, id);
  }

  lemma FirstNow(r: Run, q: Run)
    requires Onward(r, q) && |q.actions| == |r.actions| + 1
    ensures |q.states| == |r.actions| + 2 && q.states[|r.actions|] == Now(r) && q.states[|r.actions| + 1] == Now(q)
  {
  }

  /** All peers confirm it. */
  lemma ReadPolled(r: Run, id: Id, call: nat) returns (q: Run)
    requires IsRun(r) && Reigns(Now(r), id) && call in Now(r).servers[id].readCalls && !Now(r).servers[id].readCalls[call].confirming
    requires NodeOf(r, id).term == Now(r).servers[id].readCalls[call].term
    ensures Onward(r, q) && id in Now(q).servers && NodeOf(q, id) == NodeOf(r, id) && call in Now(q).servers[id].readCalls
    ensures var read := Now(q).servers[id].readCalls[call];
            && read.readIndex == Now(r).servers[id].readCalls[call].readIndex && read.confirming
            && read.acks == Now(r).servers[id].readCalls[call].acks + (Now(r).servers.Keys - {id})
  {
    hide IsRun, Prolongs, BuildProbe, Fit;
    NodeNamed(r, id);
    var e := ReadAsks(r, id, call);
    ReignsOn(Now(r), Now(e), id);
    q := AllConfirm(e, id, call, Now(r).servers.Keys - {id});
    WayOn(r, e, q);
  }

  /** A leader that has applied its log begins a read and has it confirmed. */
  lemma ReadConfirmed(r: Run, id: Id) returns (q: Run)
    requires IsRun(r) && Converged(Now(r), id)
    ensures Onward(r, q) && |q.actions| > |r.actions| && q.actions[|r.actions|] == ReadCapture(id)
    ensures Enabled(Now(q), ReadReturn(id, Now(r).calls))
  {
    hide IsRun, Kept, Begins, Converged, Reigns, MayReturn;
    LeaderDone(Now(r), id);
    var e := ReadOpened(r, id);
    FirstNow(r, e);
    KeptKeys(Now(r), Now(e), {id});
    if |Now(r).servers| == 1 {
      q := e;
      NoWay(e);
    } else {
      ConvergedReigns(Now(r), id);
      ReignsOn(Now(r), Now(e), id);
      q := ReadPolled(e, id, Now(r).calls);
      FirstKept(e, q, |r.actions|);
    }
    WayOn(r, e, q);
    MajorityAll(r, id);
    ReadReady(Now(q).servers[id], Now(r).calls, Now(r).servers.Keys - {id});
  }

  lemma FirstKept(e: Run, q: Run, s: nat)
    requires Onward(e, q) && s < |e.actions|
    ensures |q.actions| > s && q.actions[s] == e.actions[s]
  {
  }

  /** All peers and the node itself are a majority. */
  lemma MajorityAll(r: Run, id: Id)
    requires IsRun(r) && id in Now(r).servers
    ensures 1 + |Now(r).servers.Keys - {id}| == |Now(r).servers| >= Majority(NodeOf(r, id))
  {
    hide IsRun, Majority, ClusterSize, LeadsFit;
    IsFit(r, id);
    OthersSize(Now(r).servers.Keys, id);
  }

  lemma ReadReady(s: Server, call: nat, peers: set<Id>)
    requires call in s.readCalls && s.readCalls[call].confirming && s.raft.lastApplied >= s.readCalls[call].readIndex
    requires 1 + |peers| >= Majority(s.raft) && s.readCalls[call].acks == peers
    ensures MayReturn(s, call)
  {
    hide Majority;
  }

  lemma ConvergedReigns(c: Cluster, id: Id)
    requires Converged(c, id)
    ensures Reigns(c, id)
  {
    hide StoreAfter, Agree;
    assert forall j | j in c.servers :: InStep(c, id, j);
  }
}

/**
  The cluster: servers that run the handlers of module Protocol one at a time
  under their lock, and a network that may lose, duplicate, delay and reorder
  every message. A message once sent stays in `net`; not delivering it is its
  loss. Time is nondeterministic: timers expire whenever they may. A server may
  crash at any time, also between two durable writes of one handler, and restarts
  from what it had made durable.

  The membership is fixed and logs are not compacted here.
 */
module Cluster {
  import opened Wrappers
  import opened RaftTypes
  import opened CompactLog
  import opened Protocol
  import opened StoreSpec

  datatype Msg =
    | VoteRequest(vreq: VoteReq)
    | VoteReply(vreq: VoteReq, vresp: VoteResp)
    | AppendRequest(areq: AppendReq)
    | AppendReply(areq: AppendReq, aresp: AppendResp)

  /** A pre-vote round whose callers still wait: the term it began in and the peers that agreed. */
  datatype PreRound = PreRound(term: nat, grants: set<Id>)

  /** A ReadIndex call: what it captured, and the peers that confirmed the leadership since. */
  datatype ReadCall = ReadCall(term: nat, readIndex: nat, confirming: bool, acks: set<Id>)

  /** The apply loop between taking an entry and announcing its result; the lock is free in between. */
  datatype Applying = Applying(entry: Entry, waiter: Option<nat>, result: Option<Result>)

  datatype Server = Server(
    raft: Node,
    rounds: map<nat, PreRound>,
    readCalls: map<nat, ReadCall>,
    applying: Option<Applying>,
    store: Store)

  /** A Propose call's node and the entry it appended. */
  datatype Proposal = Proposal(node: Id, entry: Entry)

  /** `calls` numbers pre-vote rounds, reads and proposals. */
  datatype Cluster = Cluster(
    servers: map<Id, Server>,
    net: set<Msg>,
    calls: nat,
    proposals: map<nat, Proposal>)

  /**
    Where a crash finds a server: between two handlers, or inside one that makes
    more than one durable write.
   */
  datatype Midway =
    | Idle
    | Voting(vreq: VoteReq)                            // the later term is saved, the vote is not
    | Standing                                         // term and own vote are saved, the empty entry is not
    | Appending(areq: AppendReq, taken: nat, cut: bool) // so many entries are taken in, a conflict with the next is cut off

  datatype Action =
    | Expire(id: Id)                                   // the election timer passes its minimum
    | Campaign(id: Id)                                 // the election timer fires
    | ReceiveVoteRequest(vreq: VoteReq)
    | ReceiveVoteReply(vreq: VoteReq, vresp: VoteResp)
    | Replicate(id: Id, peer: Id)                      // one send to one peer
    | ReceiveAppendRequest(areq: AppendReq)
    | ReceiveAppendReply(areq: AppendReq, aresp: AppendResp)
    | Submit(id: Id, command: Command)                 // a Propose call
    | Abandon(id: Id, index: nat)                      // a Propose call gives up waiting
    | ReadCapture(id: Id)                              // a ReadIndex call begins
    | ReadConfirm(id: Id, call: nat)                   // it asks its peers
    | ReadReturn(id: Id, call: nat)                    // it returns without error
    | ApplyTake(id: Id)
    | ApplyRun(id: Id)
    | ApplyFinish(id: Id)
    | Crash(id: Id, midway: Midway)                    // and restart

  ghost predicate Init(c: Cluster) {
    && c.net == {} && c.proposals == map[]
    && forall id | id in c.servers ::
         && c.servers[id].raft.id == id
         && Newborn(c.servers[id], c.servers.Keys)
  }

  /** A server on its first start. */
  ghost predicate Newborn(s: Server, ids: set<Id>) {
    var n := s.raft;
    && n.role == Follower && n.term == 0 && n.votedFor == None && n.leaderId == None
    && n.log == RLog(0, 0, []) && n.commitIndex == 0 && n.lastApplied == 0
    && n.nextIndex == map[] && n.matchIndex == map[] && n.votes == {}
    && n.waiters == map[] && n.sent == map[]
    && n.cfg.members.Keys == ids && n.cfg.configIndex == 0
    && s.rounds == map[] && s.readCalls == map[] && s.applying == None && s.store == EMPTY
  }

  /** Logs are contiguous and requests well formed; this never fails (Simulation.SoundForever). */
  ghost predicate Sound(c: Cluster) {
    && (forall id | id in c.servers :: c.servers[id].raft.log.Valid())
    && (forall m | m in c.net && m.AppendRequest? :: WellFormed(m.areq))
  }

  ghost predicate Enabled(c: Cluster, a: Action) {
    match a
    case Expire(id) => id in c.servers
    case Campaign(id) => id in c.servers && c.servers[id].raft.role != Leader && !c.servers[id].raft.recent
    case ReceiveVoteRequest(req) => VoteRequest(req) in c.net && req.to in c.servers
    case ReceiveVoteReply(req, resp) => VoteReply(req, resp) in c.net && req.from in c.servers
    case Replicate(id, peer) => id in c.servers && c.servers[id].raft.role == Leader && peer in Peers(c.servers[id].raft)
    case ReceiveAppendRequest(req) => AppendRequest(req) in c.net && req.to in c.servers
    case ReceiveAppendReply(req, resp) => AppendReply(req, resp) in c.net && req.from in c.servers
    case Submit(id, _) => id in c.servers && c.servers[id].raft.role == Leader
    case Abandon(id, _) => id in c.servers
    case ReadCapture(id) => id in c.servers && c.servers[id].raft.role == Leader
    case ReadConfirm(id, call) => id in c.servers && call in c.servers[id].readCalls && !c.servers[id].readCalls[call].confirming
    case ReadReturn(id, call) => id in c.servers && call in c.servers[id].readCalls && MayReturn(c.servers[id], call)
    case ApplyTake(id) =>
      id in c.servers && c.servers[id].applying == None && c.servers[id].raft.lastApplied < c.servers[id].raft.commitIndex
    case ApplyRun(id) => id in c.servers && c.servers[id].applying.Some? && c.servers[id].applying.value.result == None
    case ApplyFinish(id) => id in c.servers && c.servers[id].applying.Some? && c.servers[id].applying.value.result.Some?
    case Crash(id, midway) => id in c.servers && c.servers[id].raft.log.Valid() && Reaches(c.net, c.servers[id].raft, midway)
  }

  /** The node can be that far in a handler: the message is there and the handler gets past its checks. */
  predicate Reaches(net: set<Msg>, n: Node, midway: Midway)
    requires n.log.Valid()
  {
    match midway
    case Idle => true
    case Voting(req) => VoteRequest(req) in net && req.to == n.id && !req.preVote && req.term > n.term
    case Standing => n.role != Leader && !n.recent && MayCampaign(n) && ClusterSize(n) == 1
    case Appending(req, taken, cut) =>
      && AppendRequest(req) in net && req.to == n.id && req.term >= n.term
      && !Mismatch(n, req) && PartFits(n.log, req.entries, taken, cut)
      && (cut ==> Conflict(Merge(n.log, req.entries[..taken]), req.entries[taken]))
  }

  /** The log can take in the first `taken` entries; to cut, there must be a next one. */
  predicate PartFits(l: RLog, es: seq<Entry>, taken: nat, cut: bool) {
    taken <= |es| && Fits(l, es[..taken]) && (cut ==> taken < |es|)
  }

  /** The log has another entry in the place of `e`. */
  predicate Conflict(l: RLog, e: Entry)
    requires l.Valid()
  {
    l.snapIndex < e.index <= l.LastIndex() && l.TermAt(e.index) != e.term
  }

  /** The log after so many entries, and perhaps without the tail that conflicts with the next. */
  function TakenIn(l: RLog, es: seq<Entry>, taken: nat, cut: bool): RLog
    requires l.Valid() && PartFits(l, es, taken, cut)
  {
    var m := Merge(l, es[..taken]);
    if cut then m.TruncateFrom(es[taken].index) else m
  }

  /** What is durable there. */
  function Halted(n: Node, midway: Midway): Node
    requires n.log.Valid()
    requires midway.Appending? ==> PartFits(n.log, midway.areq.entries, midway.taken, midway.cut)
  {
    match midway
    case Idle => n
    case Voting(req) => n.(term := req.term, votedFor := None)
    case Standing => n.(term := n.term + 1, votedFor := Some(n.id))
    case Appending(req, taken, cut) =>
      n.(term := req.term, votedFor := if req.term > n.term then None else n.votedFor,
         log := TakenIn(n.log, req.entries, taken, cut))
  }

  predicate Crashes(a: Action, id: Id) {
    a.Crash? && a.id == id
  }

  /** The leadership is confirmed by a majority, this node included, and the read index is applied. */
  predicate MayReturn(s: Server, call: nat)
    requires call in s.readCalls
  {
    && s.readCalls[call].confirming
    && 1 + |s.readCalls[call].acks| >= Majority(s.raft)
    && s.raft.lastApplied >= s.readCalls[call].readIndex
  }

  function Update(c: Cluster, id: Id, s: Server): Cluster {
    c.(servers := c.servers[id := s])
  }

  function Send(c: Cluster, ms: set<Msg>): Cluster {
    c.(net := c.net + ms)
  }

  /** The requests of an election or a pre-vote round, none when the node is its own majority. */
  function VoteRequests(n: Node, preVote: bool, round: nat, term: nat): set<Msg> {
    set p | p in Peers(n) :: VoteRequest(VoteReq(n.id, p, preVote, round, term, n.log.LastIndex(), n.log.LastTerm()))
  }

  /** An election is under way: its requests go out unless the node already leads. */
  function Stand(c: Cluster, id: Id): Cluster
    requires id in c.servers && c.servers[id].raft.log.Valid()
  {
    var s := c.servers[id];
    var n := StartElection(s.raft);
    Send(Update(c, id, s.(raft := n)), if n.role == Leader then {} else VoteRequests(n, false, n.term, n.term))
  }

  function StepCampaign(c: Cluster, id: Id): Cluster
    requires id in c.servers && c.servers[id].raft.log.Valid()
  {
    var s := c.servers[id].(raft := c.servers[id].raft.(recent := true));
    var n := s.raft;
    if !MayCampaign(n) then Update(c, id, s)
    else if ClusterSize(n) == 1 then Stand(Update(c, id, s), id)
    else
      Send(Update(c, id, s.(rounds := s.rounds[c.calls := PreRound(n.term, {})])).(calls := c.calls + 1),
           VoteRequests(n, true, c.calls, n.term + 1))
  }

  function StepVoteRequest(c: Cluster, req: VoteReq): Cluster
    requires req.to in c.servers
  {
    var s := c.servers[req.to];
    if req.preVote then Send(c, {VoteReply(req, HandlePreVote(s.raft, req))})
    else
      var (n, resp) := HandleVote(s.raft, req);
      Send(Update(c, req.to, s.(raft := n)), {VoteReply(req, resp)})
  }

  function StepVoteReply(c: Cluster, req: VoteReq, resp: VoteResp): Cluster
    requires req.from in c.servers && c.servers[req.from].raft.log.Valid()
  {
    var s := c.servers[req.from];
    if req.preVote then StepPreVoteReply(c, req, resp)
    else Update(c, req.from, s.(raft := OnVoteResp(s.raft, req, resp)))
  }

  function StepPreVoteReply(c: Cluster, req: VoteReq, resp: VoteResp): Cluster
    requires req.from in c.servers && c.servers[req.from].raft.log.Valid()
  {
    var s := c.servers[req.from];
    var n := s.raft;
    if req.round !in s.rounds then c
    else if resp.term > n.term then Update(c, req.from, s.(raft := BecomeFollower(n, resp.term)))
    else if n.role == Leader || n.term != s.rounds[req.round].term || !resp.granted then c
    else
      var round := PreRound(n.term, s.rounds[req.round].grants + {req.to});
      var d := Update(c, req.from, s.(rounds := s.rounds[req.round := round]));
      if 1 + |round.grants| >= Majority(n) then Stand(d, req.from) else d
  }

  function StepReplicate(c: Cluster, id: Id, peer: Id): Cluster
    requires id in c.servers && c.servers[id].raft.log.Valid()
  {
    match BuildAppend(c.servers[id].raft, peer)
    case Some(req) => Send(c, {AppendRequest(req)})
    case None => c
  }

  function StepAppendRequest(c: Cluster, req: AppendReq): Cluster
    requires req.to in c.servers && c.servers[req.to].raft.log.Valid() && WellFormed(req)
  {
    var s := c.servers[req.to];
    var (n, resp) := HandleAppend(s.raft, req);
    Send(Update(c, req.to, s.(raft := n)), {AppendReply(req, resp)})
  }

  function StepAppendReply(c: Cluster, req: AppendReq, resp: AppendResp): Cluster
    requires req.from in c.servers && c.servers[req.from].raft.log.Valid()
  {
    var s := c.servers[req.from];
    match req.call
    case None => Update(c, req.from, s.(raft := OnAppendResp(s.raft, req, resp)))
    case Some(call) =>
      if resp.term > req.term then
        if resp.term > s.raft.term then Update(c, req.from, s.(raft := BecomeFollower(s.raft, resp.term))) else c
      else if call in s.readCalls then
        Update(c, req.from, s.(readCalls := s.readCalls[call := s.readCalls[call].(acks := s.readCalls[call].acks + {req.to})]))
      else c
  }

  function StepSubmit(c: Cluster, id: Id, command: Command): Cluster
    requires id in c.servers && c.servers[id].raft.log.Valid()
  {
    var s := c.servers[id];
    var e := Entry(s.raft.term, s.raft.log.LastIndex() + 1, Normal(command));
    Update(c, id, s.(raft := Propose(s.raft, Normal(command), c.calls)))
      .(calls := c.calls + 1, proposals := c.proposals[c.calls := Proposal(id, e)])
  }

  function StepReadCapture(c: Cluster, id: Id): Cluster
    requires id in c.servers
  {
    var s := c.servers[id];
    var n := s.raft;
    var readIndex := if n.termStart > n.commitIndex then n.termStart else n.commitIndex;
    Update(c, id, s.(readCalls := s.readCalls[c.calls := ReadCall(n.term, readIndex, ClusterSize(n) == 1, {})]))
      .(calls := c.calls + 1)
  }

  function StepReadConfirm(c: Cluster, id: Id, call: nat): Cluster
    requires id in c.servers && call in c.servers[id].readCalls
  {
    var s := c.servers[id];
    var n, r := s.raft, s.readCalls[call];
    if n.role != Leader || n.term != r.term then Update(c, id, s.(readCalls := s.readCalls - {call}))
    else
      Send(Update(c, id, s.(readCalls := s.readCalls[call := r.(confirming := true)])),
           set p | p in Peers(n) :: AppendRequest(BuildProbe(n, p, call, r.term)))
  }

  function StepApplyTake(c: Cluster, id: Id): Cluster
    requires id in c.servers && c.servers[id].raft.log.Valid()
  {
    var s := c.servers[id];
    var n := s.raft;
    var idx := n.lastApplied + 1;
    var waiter := if idx in n.waiters then Some(n.waiters[idx]) else None;
    var m := n.(waiters := n.waiters - {idx});
    match n.log.At(idx)
    case None => Update(c, id, s.(raft := m.(lastApplied := idx)))
    case Some(e) => Update(c, id, s.(raft := m, applying := Some(Applying(e, waiter, None))))
  }

  function StepApplyRun(c: Cluster, id: Id): Cluster
    requires id in c.servers && c.servers[id].applying.Some?
  {
    var s := c.servers[id];
    var (store, r) := ApplyEntry(s.store, s.applying.value.entry);
    Update(c, id, s.(store := store, applying := Some(s.applying.value.(result := Some(r)))))
  }

  function StepApplyFinish(c: Cluster, id: Id): Cluster
    requires id in c.servers && c.servers[id].applying.Some? && c.servers[id].applying.value.result.Some?
  {
    var s := c.servers[id];
    var a := s.applying.value;
    var n := if a.entry.index > s.raft.lastApplied then s.raft.(lastApplied := a.entry.index) else s.raft;
    Update(c, id, s.(applying := None,
                     raft := if a.waiter.Some? then Deliver(n, a.waiter.value, Applied(a.result.value)) else n))
  }

  function StepExpire(c: Cluster, id: Id): Cluster
    requires id in c.servers
  {
    Update(c, id, c.servers[id].(raft := c.servers[id].raft.(recent := false)))
  }

  function StepAbandon(c: Cluster, id: Id, index: nat): Cluster
    requires id in c.servers
  {
    var n := c.servers[id].raft;
    Update(c, id, c.servers[id].(raft := n.(waiters := n.waiters - {index})))
  }

  function StepReadReturn(c: Cluster, id: Id, call: nat): Cluster
    requires id in c.servers
  {
    Update(c, id, c.servers[id].(readCalls := c.servers[id].readCalls - {call}))
  }

  /** Rounds, reads and the apply loop's work are lost, and so are the calls that wait for it. */
  function Crashed(s: Server): Server {
    s.(raft := Restart(s.raft, s.store.applied), rounds := map[], readCalls := map[], applying := None)
  }

  function StepCrash(c: Cluster, id: Id, midway: Midway): Cluster
    requires id in c.servers && c.servers[id].raft.log.Valid() && Reaches(c.net, c.servers[id].raft, midway)
  {
    var s := c.servers[id];
    Update(c, id, Crashed(s.(raft := Halted(s.raft, midway))))
  }

  /** Steps in which a message is sent or delivered by name. */
  predicate Networked(a: Action) {
    || a.ReceiveVoteRequest? || a.ReceiveVoteReply?
    || a.Replicate? || a.ReceiveAppendRequest? || a.ReceiveAppendReply?
  }

  function StepNetwork(c: Cluster, a: Action): Cluster
    requires Sound(c) && Enabled(c, a) && Networked(a)
  {
    match a
    case ReceiveVoteRequest(req) => StepVoteRequest(c, req)
    case ReceiveVoteReply(req, resp) => StepVoteReply(c, req, resp)
    case Replicate(id, peer) => StepReplicate(c, id, peer)
    case ReceiveAppendRequest(req) => StepAppendRequest(c, req)
    case ReceiveAppendReply(req, resp) => StepAppendReply(c, req, resp)
  }

  function Step(c: Cluster, a: Action): Cluster
    requires Sound(c) && Enabled(c, a)
  {
    if Networked(a) then StepNetwork(c, a)
    else
      match a
      case Expire(id) => StepExpire(c, id)
      case Campaign(id) => StepCampaign(c, id)
      case Submit(id, command) => StepSubmit(c, id, command)
      case Abandon(id, index) => StepAbandon(c, id, index)
      case ReadCapture(id) => StepReadCapture(c, id)
      case ReadConfirm(id, call) => StepReadConfirm(c, id, call)
      case ReadReturn(id, call) => StepReadReturn(c, id, call)
      case ApplyTake(id) => StepApplyTake(c, id)
      case ApplyRun(id) => StepApplyRun(c, id)
      case ApplyFinish(id) => StepApplyFinish(c, id)
      case Crash(id, midway) => StepCrash(c, id, midway)
  }

  /** A run: states joined by steps. */
  datatype Run = Run(states: seq<Cluster>, actions: seq<Action>)

  ghost predicate IsRun(r: Run) {
    && |r.states| == |r.actions| + 1
    && Init(r.states[0])
    && forall i | 0 <= i < |r.actions| :: StepAt(r, i)
  }

  ghost predicate StepAt(r: Run, i: nat)
    requires i < |r.actions| && |r.states| == |r.actions| + 1
  {
    IsStep(r.states[i], r.actions[i], r.states[i + 1])
  }

  ghost predicate IsStep(c: Cluster, a: Action, d: Cluster) {
    Sound(c) && Enabled(c, a) && d == Step(c, a)
  }
}

/**
  One node as the program runs it: fields changed in place under the lock, loops
  over entries, peers and waiting calls. Each method is proved to make of the node
  what the functions of modules Protocol, Snapshots and MembershipRules say, so all
  that is proved of those holds of the object.
 */
module RaftNode {
  import opened Wrappers
  import opened RaftTypes
  import opened CompactLog
  import opened LineFile
  import opened RaftLog
  import P = Protocol
  import S = Snapshots
  import M = MembershipRules
  import StoreSpec

  /** The durable term and vote. */
  datatype Meta = Meta(term: nat, votedFor: Option<Id>)

  /** No two indices have the same call waiting. */
  ghost predicate Distinct(waiters: map<nat, nat>) {
    forall i, j | i in waiters && j in waiters && waiters[i] == waiters[j] :: i == j
  }

  /** The configuration a start finds: the log's last, else the snapshot's, else that of the flags. */
  method RestoreConfig(l: Log, known: Members, boundary: nat, flags: Members) returns (current: Members, index: nat)
    ensures (current, index) ==
            match l.View().LatestConfig()
            case Some(e) => (e.payload.members, e.index)
            case None => if |known| > 0 then (known, boundary) else (flags, 0)
  {
    current, index := flags, 0;
    if |known| > 0 {
      current, index := known, boundary;
    }
    var e := l.LatestConfig();
    if e.Some? {
      current, index := e.value.payload.members, e.value.index;
    }
  }

  /** The peers that a snapshot is on its way to. */
  class InFlight {
    var peers: set<Id>

    constructor ()
      ensures peers == {}
    {
      peers := {};
    }
  }

  class Raft {
    const id: Id
    const log: Log
    const flights: InFlight
    var role: Role
    var term: nat
    var votedFor: Option<Id>
    var leaderId: Option<Id>
    var commitIndex: nat
    var lastApplied: nat
    var nextIndex: map<Id, nat>
    var matchIndex: map<Id, nat>
    var termStart: nat
    var votes: set<Id>
    var recent: bool
    var members: Members
    var peers: Members
    var bootstrap: Members
    var snapMembers: Members
    var configIndex: nat
    var joining: bool
    var waiters: map<nat, nat>
    var sent: map<nat, seq<P.Outcome>>
    var saved: Meta

    ghost function View(): P.Node
      reads this, log
    {
      P.Node(id, role, term, votedFor, leaderId, log.View(), commitIndex, lastApplied, nextIndex, matchIndex, termStart,
             votes, recent, P.Membership(members, bootstrap, snapMembers, configIndex, joining), waiters, sent)
    }

    /** The term and vote on disk are those in memory, and opening the log's file gives the log in memory. */
    ghost predicate Valid()
      reads this, log
    {
      && log.Valid() && log.Durable()
      && saved == Meta(term, votedFor)
      && peers == members - {id}
      && Distinct(waiters)
    }

    /** NewNode: from the term and vote, the snapshot and the log on disk, and what the store has applied. */
    constructor (self: Id, meta: Meta, snapshot: Option<S.Snapshot>, file: seq<Line<Entry>>, flags: Members, join: bool, applied: nat)
      requires Opened(file, if snapshot.Some? then snapshot.value.index else 0,
                      if snapshot.Some? then snapshot.value.term else 0).Valid()
      ensures fresh(log) && log.Valid() && log.file == file && saved == meta && fresh(flights) && flights.peers == {}
      ensures var (index, term, known) :=
                match snapshot case Some(s) => (s.index, s.term, s.members) case None => (0, 0, map[]);
              View() == S.Boot(self, meta.term, meta.votedFor, Opened(file, index, term), known, flags, join, applied)
      ensures Clean(file) ==> Valid()
    {
      hide LastConfig, After, Readable, Clean;
      var boundary, boundaryTerm, known: Members := 0, 0, map[];
      if snapshot.Some? {
        boundary, boundaryTerm, known := snapshot.value.index, snapshot.value.term, snapshot.value.members;
      }
      var l := new Log.Open(file, boundary, boundaryTerm);
      var start := if boundary > applied then boundary else applied;
      var current, index := RestoreConfig(l, known, boundary, flags);
      id, log, role, term, votedFor, leaderId := self, l, Follower, meta.term, meta.votedFor, None;
      commitIndex, lastApplied, nextIndex, matchIndex, termStart, votes, recent := start, start, map[], map[], 0, {}, true;
      members, peers, bootstrap, snapMembers, configIndex, joining := current, current - {self}, flags, known, index, join;
      waiters, sent, saved := map[], map[], meta;
      flights := new InFlight();
    }

    // ---- Single fields ----

    /** Term and vote change together, in memory and then on disk. */
    method SaveMeta(t: nat, vote: Option<Id>)
      requires Valid()
      modifies this`term, this`votedFor, this`saved
      ensures Valid() && View() == old(View()).(term := t, votedFor := vote)
    {
      hide Distinct, Told, ToldPart, Log.Valid, Log.Durable, Opened, Clean, RLog.Valid, P.Received, P.Flush;
      term, votedFor := t, vote;
      saved := Meta(term, votedFor);
    }

    method SetRole(r: Role)
      requires Valid()
      modifies this`role
      ensures Valid() && View() == old(View()).(role := r)
    {
      hide Distinct, Told, ToldPart, Log.Valid, Log.Durable, Opened, Clean, RLog.Valid, P.Received, P.Flush;
      role := r;
    }

    method SetLeader(leader: Option<Id>)
      requires Valid()
      modifies this`leaderId
      ensures Valid() && View() == old(View()).(leaderId := leader)
    {
      hide Distinct, Told, ToldPart, Log.Valid, Log.Durable, Opened, Clean, RLog.Valid, P.Received, P.Flush;
      leaderId := leader;
    }

    method ResetTimer()
      requires Valid()
      modifies this`recent
      ensures Valid() && View() == old(View()).(recent := true)
    {
      hide Distinct, Told, ToldPart, Log.Valid, Log.Durable, Opened, Clean, RLog.Valid, P.Received, P.Flush;
      recent := true;
    }

    method SetVotes(v: set<Id>)
      requires Valid()
      modifies this`votes
      ensures Valid() && View() == old(View()).(votes := v)
    {
      hide Distinct, Told, ToldPart, Log.Valid, Log.Durable, Opened, Clean, RLog.Valid, P.Received, P.Flush;
      votes := v;
    }

    method SetIndexes(next: map<Id, nat>, match': map<Id, nat>)
      requires Valid()
      modifies this`nextIndex, this`matchIndex
      ensures Valid() && View() == old(View()).(nextIndex := next, matchIndex := match')
    {
      hide Distinct, Told, ToldPart, Log.Valid, Log.Durable, Opened, Clean, RLog.Valid, P.Received, P.Flush;
      nextIndex, matchIndex := next, match';
    }

    method SetTermStart(index: nat)
      requires Valid()
      modifies this`termStart
      ensures Valid() && View() == old(View()).(termStart := index)
    {
      hide Distinct, Told, ToldPart, Log.Valid, Log.Durable, Opened, Clean, RLog.Valid, P.Received, P.Flush;
      termStart := index;
    }

    // ---- Reading the configuration ----

    method Majority() returns (m: nat)
      requires Valid()
      ensures m == P.Majority(View())
    {
      PeerIds(members, id);
      m := (|peers.Keys| + 1) / 2 + 1;
    }

    lemma Fields()
      requires Valid()
      ensures var n := View();
              && n.id == id && n.role == role && n.term == term && n.log == log.View() && n.log.Valid() && log.Valid()
              && n.votedFor == votedFor && n.commitIndex == commitIndex && n.lastApplied == lastApplied && n.votes == votes
              && n.nextIndex == nextIndex && n.matchIndex == matchIndex && n.waiters == waiters
              && n.cfg == P.Membership(members, bootstrap, snapMembers, configIndex, joining)
              && peers == members - {id}
    {
    }

    // ---- Commit rule ----

    method CountHolders(idx: nat) returns (count: nat)
      ensures count == 1 + |P.Holders(View(), idx)|
    {
      count := 1;
      var rest := matchIndex.Keys;
      ghost var held: set<Id> := {};
      while rest != {}
        invariant rest <= matchIndex.Keys
        invariant held == set p | p in matchIndex && p !in rest && matchIndex[p] >= idx
        invariant count == 1 + |held|
        decreases |rest|
      {
        var p :| p in rest;
        rest := rest - {p};
        if matchIndex[p] >= idx {
          held := held + {p};
          count := count + 1;
        }
      }
      assert held == P.Holders(View(), idx);
    }

    /** Walks up the log from the commit index and stops at nothing: a later index may commit what an earlier may not. */
    method AdvanceCommit()
      requires Valid()
      modifies this`commitIndex
      ensures Valid() && View() == P.AdvanceCommit(old(View()))
    {
      hide P.CommitUpTo, P.Holders, P.Majority, RLog.Valid, RLog.TermAt, RLog.LastIndex, Opened, Clean;
      ghost var n := View();
      var last := log.LastIndex();
      CommitStart(n);
      var idx := commitIndex + 1;
      while idx <= last
        invariant n.commitIndex + 1 <= idx && (idx <= last + 1 || idx == n.commitIndex + 1)
        invariant commitIndex == P.CommitUpTo(n, idx - 1)
        decreases last + 1 - idx
      {
        assert View() == n.(commitIndex := commitIndex) && Valid();
        var t := log.TermAt(idx);
        var count := CountHolders(idx);
        var majority := Majority();
        CommitNext(n, commitIndex, idx);
        if t == term && count >= majority {
          commitIndex := idx;
        }
        idx := idx + 1;
      }
      BeyondEnd(n, idx - 1, last);
    }

    // ---- Changing role ----

    /** Every waiting call is told, once. */
    method FlushWaiters()
      requires Distinct(waiters)
      modifies this`waiters, this`sent
      ensures waiters == map[] && sent == Told(old(waiters), old(sent))
    {
      hide *;
      ghost var waiting, was := waiters, sent;
      ToldStart(waiting, was);
      while waiters != map[]
        invariant waiters.Keys <= waiting.Keys && forall i | i in waiters :: waiters[i] == waiting[i]
        invariant sent == ToldPart(waiting, waiters.Keys, was)
        decreases |waiters.Keys|
      {
        var i :| i in waiters;
        var call := waiters[i];
        ToldOne(waiting, waiters.Keys, was, i);
        sent := sent[call := (if call in sent then sent[call] else []) + [P.NotLeader]];
        ghost var before := waiters;
        waiters := waiters - {i};
        assert waiters.Keys == before.Keys - {i};
      }
      ToldAll(waiting, waiters, was);
    }

    method TellWaiters()
      requires Valid()
      modifies this`waiters, this`sent
      ensures Valid() && View() == P.Flush(old(View()))
    {
      hide Told, ToldPart, Log.Valid, Log.Durable, Opened, Clean, RLog.Valid, P.Received, P.Flush;
      FlushTells(View());
      FlushWaiters();
    }

    method BecomeFollower(t: nat)
      requires Valid()
      modifies this
      ensures Valid() && View() == P.BecomeFollower(old(View()), t)
    {
      hide Valid, View, P.Flush, P.BecomeFollower;
      Fields();
      var led := role == Leader;
      FollowerFields(View(), t);
      SetRole(Follower);
      if t > term {
        SaveMeta(t, None);
      }
      ResetTimer();
      if led {
        FlushTells(View());
        TellWaiters();
      }
    }

    /** Index maps that give every peer the same value. */
    method PeerMap(value: nat) returns (m: map<Id, nat>)
      ensures m == map p | p in peers.Keys :: value
    {
      m := map[];
      var rest := peers.Keys;
      while rest != {}
        invariant rest <= peers.Keys
        invariant m == map p | p in peers.Keys - rest :: value
        decreases |rest|
      {
        var p :| p in rest;
        rest := rest - {p};
        m := m[p := value];
      }
    }

    /** A new leader expects its peers at the end of its log. */
    method ClaimLead()
      requires Valid()
      modifies this
      ensures Valid() && View() == Claimed(old(View()))
    {
      hide Valid, View, RLog.LastIndex, Claimed;
      Fields();
      var last := log.LastIndex();
      var next := PeerMap(last + 1);
      var match' := PeerMap(0);
      ClaimedFields(View(), next, match', peers);
      SetRole(Leader);
      SetLeader(Some(id));
      SetIndexes(next, match');
      SetTermStart(last + 1);
    }

    /** An entry goes to the end of the log, on disk first. */
    method AppendEntry(e: Entry)
      requires Valid() && e.index == log.View().LastIndex() + 1
      modifies log
      ensures Valid() && View() == old(View()).(log := old(View()).log.Append(e))
    {
      hide Distinct, Told, ToldPart, Opened, Clean, P.Received, P.Flush;
      log.Append([e]);
    }

    /** It appends an empty entry of its term. */
    method TakeLead()
      requires Valid()
      modifies this, log
      ensures Valid() && View() == P.TakeLead(old(View()))
    {
      hide Valid, View;
      var last := log.LastIndex();
      Fields();
      ClaimLead();
      Fields();
      AppendEntry(Entry(term, last + 1, Noop));
    }

    method BecomeLeader()
      requires Valid()
      modifies this, log
      ensures Valid() && View() == P.BecomeLeader(old(View()))
    {
      hide P.TakeLead, P.AdvanceCommit, Valid, View;
      TakeLead();
      AdvanceCommit();
    }

    method BecomeCandidate()
      requires Valid()
      modifies this
      ensures Valid() && View() == P.BecomeCandidate(old(View()))
    {
      hide Valid, View;
      Fields();
      SetRole(Candidate);
      SaveMeta(term + 1, Some(id));
      SetLeader(None);
      ResetTimer();
      SetVotes({});
    }

    method ClusterSize() returns (size: nat)
      requires Valid()
      ensures size == P.ClusterSize(View())
    {
      PeerIds(members, id);
      size := |peers.Keys| + 1;
    }

    method StartElection()
      requires Valid()
      modifies this, log
      ensures Valid() && View() == P.StartElection(old(View()))
    {
      hide Valid, View, P.BecomeCandidate, P.BecomeLeader, P.ClusterSize;
      BecomeCandidate();
      Fields();
      var size := ClusterSize();
      if size == 1 {
        BecomeLeader();
      }
    }

    // ---- Votes ----

    /** Nothing of the node changes. */
    method HandlePreVote(req: P.VoteReq) returns (resp: P.VoteResp)
      requires Valid()
      ensures resp == P.HandlePreVote(View(), req)
    {
      resp := P.VoteResp(term, false);
      if req.term <= term || role == Leader || (leaderId.Some? && recent) {
        return;
      }
      var lastTerm := log.LastTerm();
      var last := log.LastIndex();
      if UpToDate(req.lastTerm, req.lastIndex, lastTerm, last) {
        resp := resp.(granted := true);
      }
    }

    method HandleVote(req: P.VoteReq) returns (resp: P.VoteResp)
      requires Valid()
      modifies this
      ensures Valid() && (View(), resp) == P.HandleVote(old(View()), req)
    {
      hide Valid, View, P.BecomeFollower;
      Fields();
      if req.term > term {
        BecomeFollower(req.term);
        Fields();
      }
      resp := P.VoteResp(term, false);
      if req.term < term {
        return;
      }
      var lastTerm := log.LastTerm();
      var last := log.LastIndex();
      if (votedFor == None || votedFor == Some(req.from)) && UpToDate(req.lastTerm, req.lastIndex, lastTerm, last) {
        SaveMeta(term, Some(req.from));
        ResetTimer();
        resp := resp.(granted := true);
      }
    }

    method OnVoteResp(req: P.VoteReq, resp: P.VoteResp)
      requires Valid()
      modifies this, log
      ensures Valid() && View() == P.OnVoteResp(old(View()), req, resp)
    {
      hide Valid, Distinct, Told, ToldPart, Log.Valid, Log.Durable, Opened, Clean, RLog.Valid, P.Received, P.Flush, P.BecomeFollower, P.BecomeLeader, P.Majority;
      Fields();
      if resp.term > term {
        BecomeFollower(resp.term);
        return;
      }
      if role != Candidate || term != req.term || !resp.granted {
        return;
      }
      SetVotes(votes + {req.to});
      var majority := Majority();
      if 1 + |votes| >= majority {
        BecomeLeader();
      }
    }

    // ---- Membership ----

    method SetMembers(newMembers: Members, index: nat)
      requires Valid()
      modifies this`members, this`configIndex, this`peers
      ensures Valid() && View() == old(View()).(cfg := old(View()).cfg.(members := newMembers, configIndex := index))
    {
      hide Distinct, Told, ToldPart, Log.Valid, Log.Durable, Opened, Clean, RLog.Valid, P.Received, P.Flush;
      members, configIndex, peers := newMembers, index, newMembers - {id};
    }

    method Join()
      requires Valid()
      modifies this`joining
      ensures Valid() && View() == old(View()).(cfg := old(View()).cfg.(joining := false))
    {
      hide Distinct, Told, ToldPart, Log.Valid, Log.Durable, Opened, Clean, RLog.Valid, P.Received, P.Flush;
      joining := false;
    }

    /** A leader's index maps follow its set of peers; to a removed peer no snapshot counts as being on its way. */
    method TrackPeers()
      requires Valid()
      modifies this`nextIndex, this`matchIndex, flights
      ensures Valid() && View() == old(View()).(nextIndex := nextIndex, matchIndex := matchIndex)
      ensures var n := old(View());
              (nextIndex, matchIndex) == Tracked(n.nextIndex, n.matchIndex, P.Peers(n), n.log.LastIndex() + 1)
      ensures flights.peers == old(flights.peers) - (old(nextIndex).Keys - nextIndex.Keys)
    {
      hide Valid, View, Grown, Without, RLog.LastIndex;
      Fields();
      var last := log.LastIndex();
      PeerIds(members, id);
      GrownKeys(nextIndex, peers.Keys, last + 1);
      var next, match' := AddPeers(nextIndex, matchIndex, peers.Keys, last + 1);
      TrackedKeys(nextIndex, matchIndex, peers.Keys, last + 1);
      ghost var before := nextIndex;
      var flying: set<Id>;
      next, match', flying := DropPeers(next, match', flights.peers, peers.Keys);
      assert before.Keys - next.Keys == before.Keys - peers.Keys;
      SetIndexes(next, match');
      flights.peers := flying;
      Fields();
    }

    method ApplyConfig(newMembers: Members, index: nat)
      requires Valid()
      modifies this, flights
      ensures Valid() && View() == P.ApplyConfig(old(View()), newMembers, index) && role == old(role)
      ensures flights.peers == old(flights.peers) - (old(nextIndex).Keys - nextIndex.Keys)
      ensures role != Leader ==> flights.peers == old(flights.peers)
    {
      hide Valid, View, Tracked, P.ApplyConfig;
      ghost var n := View();
      Fields();
      SetMembers(newMembers, index);
      if role == Leader {
        TrackPeers();
      }
      if id in newMembers {
        Join();
      }
      ConfigTracks(n, newMembers, index);
    }

    method RecomputeConfig()
      requires Valid()
      modifies this, flights
      ensures Valid() && View() == P.RecomputeConfig(old(View())) && role == old(role)
      ensures role != Leader ==> flights.peers == old(flights.peers)
    {
      hide Valid, View, P.ApplyConfig, Distinct, Told, ToldPart, Log.Valid, Log.Durable, Opened, Clean, RLog.Valid, P.Received, P.Flush;
      Fields();
      var e := log.LatestConfig();
      if e.Some? {
        ApplyConfig(e.value.payload.members, e.value.index);
      } else if |snapMembers| > 0 {
        ApplyConfig(snapMembers, log.snapIndex);
      } else {
        ApplyConfig(bootstrap, 0);
      }
    }

    /** An entry from a leader is appended; a configuration takes effect at once. */
    method AcceptEntry(e: Entry)
      requires Valid() && e.index == log.View().LastIndex() + 1
      modifies this, log, flights
      ensures Valid() && View() == P.AcceptEntry(old(View()), e) && role == old(role)
      ensures role != Leader ==> flights.peers == old(flights.peers)
    {
      hide Valid, View, P.ApplyConfig, Distinct, Told, ToldPart, Log.Valid, Log.Durable, Opened, Clean, RLog.Valid, P.Received, P.Flush;
      Fields();
      AppendEntry(e);
      if e.payload.Config? {
        ApplyConfig(e.payload.members, e.index);
      }
    }

    // ---- Replication ----

    method CutLog(index: nat)
      requires Valid()
      modifies log
      ensures old(View()).log.Valid() && Valid() && View() == old(View()).(log := old(View()).log.TruncateFrom(index))
    {
      hide RLog.TruncateFrom, Distinct, Told, ToldPart, Opened, Clean, P.Received, P.Flush;
      log.TruncateFrom(index);
    }

    /** Skip what is covered or present; cut a conflict; append. */
    method MergeEntry(e: Entry)
      requires Valid() && View().log.Valid() && e.index <= View().log.LastIndex() + 1
      modifies this, log, flights
      ensures old(View()).log.Valid() && Valid() && View() == P.MergeEntry(old(View()), e) && role == old(role)
      ensures role != Leader ==> flights.peers == old(flights.peers)
    {
      hide Valid, View, P.ApplyConfig, P.RecomputeConfig, P.AcceptEntry, RLog.TruncateFrom, RLog.TermAt, RLog.LastIndex, MergeOne, Distinct, Told, ToldPart, Log.Valid, Log.Durable, Opened, Clean, RLog.Valid, P.Received, P.Flush;
      Fields();
      var last := log.LastIndex();
      if e.index <= log.snapIndex {
        return;
      }
      var t := log.TermAt(e.index);
      if e.index <= last && t == e.term {
        return;
      }
      if e.index <= last {
        M.TruncatedEnd(View().log, e.index);
        CutLog(e.index);
        Fields();
        if e.index <= configIndex {
          RecomputeConfig();
          Fields();
        }
      }
      AcceptEntry(e);
    }

    /** Where the log lacks the entry the request builds on, the reply says how far back to go. */
    method HandleAppend(req: P.AppendReq) returns (resp: P.AppendResp)
      requires Valid() && View().log.Valid() && P.WellFormed(req)
      modifies this, log, flights
      ensures old(View()).log.Valid() && Valid() && (View(), resp) == P.HandleAppend(old(View()), req)
      ensures flights.peers == old(flights.peers)
    {
      hide Valid, View, P.Acknowledge, P.MergeEntries, P.MergeEntry, P.LearnCommit, Merge, MergeOne, RLog.TermAt, RLog.LastIndex, Distinct, Told, ToldPart, Log.Valid, Log.Durable, Opened, Clean, RLog.Valid, P.Received, P.Flush;
      Fields();
      var last := log.LastIndex();
      resp := P.AppendResp(term, false, last);
      if req.term < term {
        return;
      }
      Acknowledge(req);
      Fields();
      ghost var m := View();
      last := log.LastIndex();
      resp := P.AppendResp(term, false, last);
      if req.prevIndex > 0 {
        var t := log.TermAt(req.prevIndex);
        if last < req.prevIndex || t != req.prevTerm {
          resp := resp.(matchIndex := if req.prevIndex - 1 < last then req.prevIndex - 1 else last);
          return;
        }
      }
      MergeAll(req.entries, req.prevIndex);
      LearnCommit(req.leaderCommit);
      resp := resp.(success := true, matchIndex := req.prevIndex + |req.entries|);
    }

    /** The loop over the request's entries. */
    method MergeAll(es: seq<Entry>, prev: nat)
      requires Valid() && View().log.Valid() && Fits(View().log, es) && Contiguous(es, prev + 1)
      modifies this, log, flights
      ensures old(View()).log.Valid() && Valid() && View() == P.MergeEntries(old(View()), es) && role == old(role)
      ensures role != Leader ==> flights.peers == old(flights.peers)
    {
      hide Valid, View, P.MergeEntry, Merge, MergeOne, RLog.LastIndex, RLog.TermAt, Distinct, Told, ToldPart, Log.Valid, Log.Durable, Opened, Clean, RLog.Valid, P.Received, P.Flush;
      ghost var n := View();
      var k := 0;
      assert es[..0] == [];
      while k < |es|
        invariant 0 <= k <= |es| && Valid()
        invariant Fits(n.log, es[..k]) && View() == P.MergeEntries(n, es[..k])
        invariant role == old(role) && (role != Leader ==> flights.peers == old(flights.peers))
      {
        Fields();
        assert es[..k + 1][..k] == es[..k];
        MergeNext(n.log, es, k);
        MergeEntry(es[k]);
        k := k + 1;
      }
      assert es[..k] == es;
    }

    /** The sender leads: it is followed, and the timer starts anew. */
    method Acknowledge(req: P.AppendReq)
      requires Valid()
      modifies this
      ensures Valid() && View() == P.Acknowledge(old(View()), req) && role == Follower
    {
      hide Valid, View, Distinct, Told, ToldPart, Log.Valid, Log.Durable, Opened, Clean, RLog.Valid, P.Received, P.Flush;
      Fields();
      if req.term > term || role != Follower {
        FollowerFields(View(), req.term);
        BecomeFollower(req.term);
        Fields();
      }
      SetLeader(Some(req.from));
      ResetTimer();
    }

    /** The commit index follows the leader's, up to the end of the log. */
    method LearnCommit(leaderCommit: nat)
      requires Valid()
      modifies this`commitIndex
      ensures Valid() && View() == P.LearnCommit(old(View()), leaderCommit)
    {
      hide RLog.LastIndex, Distinct, Told, ToldPart, Log.Valid, Log.Durable, Opened, Clean, RLog.Valid, P.Received, P.Flush;
      if leaderCommit > commitIndex {
        var last := log.LastIndex();
        commitIndex := if leaderCommit > last then last else leaderCommit;
      }
    }

    /** What goes to a peer; none if the entries it needs are compacted away. */
    method BuildAppend(peer: Id) returns (req: Option<P.AppendReq>)
      requires Valid() && View().log.Valid()
      ensures req == P.BuildAppend(View(), peer)
    {
      hide RLog.TermAt, RLog.From, Distinct, Told, ToldPart, Log.Valid, Log.Durable, Opened, Clean, RLog.Valid, P.Received, P.Flush;
      var next := if peer in nextIndex then nextIndex[peer] else 0;
      if next <= log.snapIndex {
        return None;
      }
      var t := log.TermAt(next - 1);
      var es := log.From(next);
      return Some(P.AppendReq(id, peer, None, term, next - 1, t, es, commitIndex));
    }

    /** Sends entries, or starts sending a snapshot if none is on its way to the peer already. */
    method SendAppend(peer: Id) returns (req: Option<P.AppendReq>, snapshot: bool)
      requires Valid() && View().log.Valid()
      modifies flights
      ensures Valid() && View() == old(View()) && req == P.BuildAppend(View(), peer)
      ensures snapshot <==> req.None? && peer !in old(flights.peers)
      ensures flights.peers == if snapshot then old(flights.peers) + {peer} else old(flights.peers)
    {
      hide P.BuildAppend;
      req := BuildAppend(peer);
      snapshot := req.None? && peer !in flights.peers;
      if snapshot {
        flights.peers := flights.peers + {peer};
      }
    }

    /** Sending a snapshot has ended, with success or not. */
    method SnapshotSent(peer: Id)
      modifies flights
      ensures flights.peers == old(flights.peers) - {peer}
    {
      flights.peers := flights.peers - {peer};
    }

    /** What a peer is known to hold, and what it is sent next. */
    method RecordMatch(peer: Id, reached: nat)
      requires Valid()
      modifies this`nextIndex, this`matchIndex
      ensures Valid()
      ensures var n := old(View());
              var held := if reached > P.Lookup(n.matchIndex, peer) then reached else P.Lookup(n.matchIndex, peer);
              View() == n.(matchIndex := if reached > P.Lookup(n.matchIndex, peer) then n.matchIndex[peer := reached] else n.matchIndex,
                           nextIndex := n.nextIndex[peer := held + 1])
    {
      hide Distinct, Told, ToldPart, Log.Valid, Log.Durable, Opened, Clean, RLog.Valid, P.Received, P.Flush;
      if reached > P.Lookup(matchIndex, peer) {
        matchIndex := matchIndex[peer := reached];
      }
      nextIndex := nextIndex[peer := P.Lookup(matchIndex, peer) + 1];
    }

    /** Unsigned arithmetic: one before 0 is the largest 64-bit value. */
    method StepBack(peer: Id, hint: nat)
      requires Valid()
      modifies this`nextIndex
      ensures Valid()
      ensures var n := old(View());
              View() == n.(nextIndex := n.nextIndex[peer := P.BackOff(P.Lookup(n.nextIndex, peer), hint)])
    {
      hide Distinct, Told, ToldPart, Log.Valid, Log.Durable, Opened, Clean, RLog.Valid, P.Received, P.Flush;
      var next := P.Lookup(nextIndex, peer);
      var newNext := hint + 1;
      if newNext >= next {
        newNext := if next == 0 then P.MAX_UINT64 else next - 1;
      }
      if newNext < 1 {
        newNext := 1;
      }
      nextIndex := nextIndex[peer := newNext];
    }

    method OnAppendResp(req: P.AppendReq, resp: P.AppendResp)
      requires Valid() && View().log.Valid()
      modifies this
      ensures Valid() && View() == P.OnAppendResp(old(View()), req, resp)
    {
      hide Valid, View, P.BecomeFollower, P.AdvanceCommit, P.BackOff, P.Lookup, Distinct, Told, ToldPart, Log.Valid, Log.Durable, Opened, Clean, RLog.Valid, P.Received, P.Flush;
      Fields();
      if resp.term > term {
        BecomeFollower(resp.term);
        return;
      }
      if role != Leader || term != req.term {
        return;
      }
      if resp.success {
        RecordMatch(req.to, req.prevIndex + |req.entries|);
        AdvanceCommit();
        return;
      }
      StepBack(req.to, resp.matchIndex);
    }

    // ---- Proposals ----

    /** A new call waits for the entry at `index`. */
    method AddWaiter(index: nat, call: nat)
      requires Valid() && forall i | i in waiters :: waiters[i] != call
      modifies this`waiters
      ensures Valid() && View() == old(View()).(waiters := old(View()).waiters[index := call])
    {
      hide Told, ToldPart, Log.Valid, Log.Durable, Opened, Clean, RLog.Valid, P.Received, P.Flush;
      waiters := waiters[index := call];
    }

    /** The part of Propose under the lock, at a leader. Each call has a channel of its own. */
    method Propose(payload: Payload, call: nat)
      requires Valid() && View().log.Valid() && forall i | i in waiters :: waiters[i] != call
      modifies this, log
      ensures Valid() && View() == P.Propose(old(View()), payload, call)
    {
      hide Valid, View, P.AdvanceCommit, RLog.LastIndex, Distinct, Told, ToldPart, Log.Valid, Log.Durable, Opened, Clean, RLog.Valid, P.Received, P.Flush;
      Fields();
      var last := log.LastIndex();
      var e := Entry(term, last + 1, payload);
      AppendEntry(e);
      Fields();
      AddWaiter(e.index, call);
      AdvanceCommit();
    }

    /** A configuration is appended, takes effect at once, and a call waits for it. */
    method AppendConfig(newMembers: Members, call: nat)
      requires Valid() && View().log.Valid() && forall i | i in waiters :: waiters[i] != call
      modifies this, log, flights
      ensures Valid() && flights.peers == old(flights.peers) - (old(nextIndex).Keys - nextIndex.Keys)
      ensures var n := old(View());
              var e := Entry(n.term, n.log.LastIndex() + 1, Config(newMembers));
              View() == P.ApplyConfig(n.(log := n.log.Append(e), waiters := n.waiters[e.index := call]), newMembers, e.index)
    {
      hide Valid, View, P.ApplyConfig, RLog.LastIndex, Distinct, RLog.Valid;
      Fields();
      var last := log.LastIndex();
      AppendEntry(Entry(term, last + 1, Config(newMembers)));
      Fields();
      AddWaiter(last + 1, call);
      ApplyConfig(newMembers, last + 1);
    }

    /** The part of a membership change under the lock. */
    method ProposeConfig(c: M.Change, call: nat) returns (refused: Option<M.ConfigError>)
      requires Valid() && View().log.Valid() && forall i | i in waiters :: waiters[i] != call
      modifies this, log, flights
      ensures Valid() && flights.peers == old(flights.peers) - (old(nextIndex).Keys - nextIndex.Keys)
      ensures match M.ProposeConfig(old(View()), c, call)
              case Accepted(m) => refused == None && View() == m
              case Refused(error) => refused == Some(error) && View() == old(View())
    {
      hide Valid, View, P.AdvanceCommit, P.ApplyConfig, M.Changed, RLog.LastIndex, RLog.Append, Distinct, RLog.Valid;
      Fields();
      if c.Add? && (c.id == "" || c.address == "") {
        return Some(M.BadMember);
      }
      if role != Leader {
        return Some(M.LeaderElsewhere);
      }
      if configIndex > commitIndex {
        return Some(M.ChangeInProgress);
      }
      if c == M.Remove(id) {
        return Some(M.RemovesLeader);
      }
      var changed := M.Changed(members, id, c);
      if changed.None? {
        return Some(M.BadMember);
      }
      AppendConfig(changed.value, call);
      AdvanceCommit();
      return None;
    }

    // ---- Snapshots ----

    method CompactLog(index: nat, t: nat)
      requires Valid()
      modifies log
      ensures old(View()).log.Valid() && Valid() && View() == old(View()).(log := old(View()).log.CompactTo(index, t))
    {
      hide RLog.CompactTo, Distinct, Told, ToldPart, Opened, Clean, P.Received, P.Flush;
      log.CompactTo(index, t);
    }

    method SetPositions(index: nat)
      requires Valid()
      modifies this`commitIndex, this`lastApplied
      ensures Valid() && View() == old(View()).(commitIndex := index, lastApplied := index)
    {
      hide Distinct, Told, ToldPart, Log.Valid, Log.Durable, Opened, Clean, RLog.Valid, P.Received, P.Flush;
      commitIndex, lastApplied := index, index;
    }

    method SetSnapMembers(m: Members)
      requires Valid()
      modifies this`snapMembers
      ensures Valid() && View() == old(View()).(cfg := old(View()).cfg.(snapMembers := m))
    {
      hide Distinct, Told, ToldPart, Log.Valid, Log.Durable, Opened, Clean, RLog.Valid, P.Received, P.Flush;
      snapMembers := m;
    }

    /** What handleInstallSnapshot does once the snapshot is saved and restored into the state machine. */
    method Install(s: S.Snapshot)
      requires Valid() && View().log.Valid()
      modifies this, log, flights
      ensures Valid() && View() == S.Install(old(View()), s)
      ensures flights.peers == old(flights.peers) - (old(nextIndex).Keys - nextIndex.Keys)
    {
      hide Valid, View, P.ApplyConfig, RLog.CompactTo, RLog.Valid;
      CompactLog(s.index, s.term);
      SetPositions(s.index);
      if |s.members| > 0 {
        LearnMembers(s.members, s.index);
      }
    }

    /** The members of a snapshot; they take effect if they are no older than those in effect. */
    method LearnMembers(known: Members, index: nat)
      requires Valid()
      modifies this, flights
      ensures Valid() && flights.peers == old(flights.peers) - (old(nextIndex).Keys - nextIndex.Keys)
      ensures var k := old(View()).(cfg := old(View()).cfg.(snapMembers := known));
              View() == if index >= k.cfg.configIndex then P.ApplyConfig(k, known, index) else k
    {
      hide Valid, View, P.ApplyConfig;
      SetSnapMembers(known);
      Fields();
      if index >= configIndex {
        ApplyConfig(known, index);
      }
    }

    /** The first critical section of maybeSnapshot: is one due, of which entry, and with which members? */
    method ChooseSnapshot(threshold: nat) returns (chosen: Option<(nat, nat, Members)>)
      requires Valid() && View().log.Valid() && log.snapIndex <= lastApplied
      ensures chosen == if S.SnapshotDue(View(), threshold)
                        then Some((lastApplied, View().log.TermAt(lastApplied), members)) else None
    {
      hide RLog.TermAt, Distinct, Told, ToldPart, Log.Valid, Log.Durable, Opened, Clean, RLog.Valid, P.Received, P.Flush;
      var idx := lastApplied;
      if idx == 0 || idx - log.snapIndex < threshold {
        return None;
      }
      var t := log.TermAt(idx);
      if t == 0 {
        return None;
      }
      return Some((idx, t, members));
    }

    /** The last critical section of maybeSnapshot: too late if a snapshot was installed meanwhile. */
    method Compact(index: nat, t: nat, captured: Members)
      requires Valid() && View().log.Valid()
      modifies this, log
      ensures Valid() && View() == S.Compact(old(View()), index, t, captured)
    {
      hide Valid, View, RLog.CompactTo, Distinct, Told, ToldPart, Log.Valid, Log.Durable, Opened, Clean, RLog.Valid, P.Received, P.Flush;
      Fields();
      if index <= log.snapIndex {
        return;
      }
      SetSnapMembers(captured);
      CompactLog(index, t);
    }

    // ---- The apply loop ----

    /** Takes the next committed entry and the call that waits for it. */
    method TakeEntry() returns (e: Option<Entry>, waiter: Option<nat>)
      requires Valid() && View().log.Valid() && lastApplied < commitIndex
      modifies this
      ensures Valid()
      ensures var n, idx := old(View()), old(lastApplied) + 1;
              && e == n.log.At(idx) && waiter == (if idx in n.waiters then Some(n.waiters[idx]) else None)
              && View() == n.(waiters := n.waiters - {idx}, lastApplied := if e.None? then idx else n.lastApplied)
    {
      hide RLog.At, Told, ToldPart, Log.Valid, Log.Durable, Opened, Clean, RLog.Valid, P.Received, P.Flush;
      var idx := lastApplied + 1;
      Fields();
      e := log.At(idx);
      waiter := if idx in waiters then Some(waiters[idx]) else None;
      waiters := waiters - {idx};
      if e.None? {
        lastApplied := idx;
      }
    }

    /** The entry has been applied; a snapshot installed meanwhile may have moved the index further. */
    method FinishEntry(idx: nat)
      requires Valid()
      modifies this`lastApplied
      ensures Valid() && View() == old(View()).(lastApplied := if idx > old(lastApplied) then idx else old(lastApplied))
    {
      hide Distinct, Told, ToldPart, Log.Valid, Log.Durable, Opened, Clean, RLog.Valid, P.Received, P.Flush;
      if idx > lastApplied {
        lastApplied := idx;
      }
    }
  }

  /**
    A crash at any moment between two methods: what is on disk, opened again, is the
    restarted node of the cluster's Crash step.
   */
  lemma CrashRestarts(r: Raft, join: bool, applied: nat)
    requires r.Valid() && M.Derived(r.View())
    ensures Opened(r.log.file, r.log.snapIndex, r.log.snapTerm).Valid()
    ensures var n, b := r.View(), S.Boot(r.id, r.saved.term, r.saved.votedFor, Opened(r.log.file, r.log.snapIndex, r.log.snapTerm),
                                         r.snapMembers, r.bootstrap, join, applied);
            && b == P.Restart(n, applied).(sent := map[], cfg := n.cfg.(configIndex := b.cfg.configIndex, joining := join))
            && (b.cfg.configIndex == n.cfg.configIndex || (b.cfg.configIndex <= n.log.snapIndex && n.cfg.configIndex <= n.log.snapIndex))
  {
    hide Opened, Clean, RLog.Valid, LastConfig;
  }

  /** The next entry fits the log that the entries before it have made. */
  lemma MergeNext(l: RLog, es: seq<Entry>, k: nat)
    requires l.Valid() && Fits(l, es) && k < |es| && Fits(l, es[..k])
    ensures es[k].index <= Merge(l, es[..k]).LastIndex() + 1 && Fits(l, es[..k + 1])
  {
  }

  /** A map with `value` at some more keys. */
  function Grown(m: map<Id, nat>, added: set<Id>, value: nat): map<Id, nat> {
    m + (map p | p in added :: value)
  }

  function Without(m: map<Id, nat>, dropped: set<Id>): map<Id, nat> {
    m - dropped
  }

  lemma GrownNone(m: map<Id, nat>, value: nat)
    ensures Grown(m, {}, value) == m
  {
  }

  lemma GrownOne(m: map<Id, nat>, added: set<Id>, value: nat, p: Id)
    ensures Grown(m, added + {p}, value) == Grown(m, added, value)[p := value]
  {
  }

  lemma GrownKeys(m: map<Id, nat>, peers: set<Id>, value: nat)
    ensures Grown(m, peers - m.Keys, value).Keys - peers == m.Keys - peers
  {
  }

  lemma WithoutNone(m: map<Id, nat>)
    ensures Without(m, {}) == m
  {
  }

  lemma WithoutOne(m: map<Id, nat>, dropped: set<Id>, p: Id)
    ensures Without(m, dropped + {p}) == Without(m, dropped) - {p}
  {
  }

  /** Going through `all` but for `rest`: the next element counts if it is not in `out`. */
  lemma Through(all: set<Id>, rest: set<Id>, out: set<Id>, p: Id)
    requires p in rest && rest <= all
    ensures all - (rest - {p}) - out == if p in out then all - rest - out else (all - rest - out) + {p}
  {
  }

  /** Peers without an index get one. */
  method AddPeers(next: map<Id, nat>, match': map<Id, nat>, peers: set<Id>, start: nat) returns (a: map<Id, nat>, b: map<Id, nat>)
    ensures a == Grown(next, peers - next.Keys, start) && b == Grown(match', peers - next.Keys, 0)
  {
    hide Grown;
    a, b := next, match';
    var rest := peers;
    ghost var added: set<Id> := {};
    GrownNone(next, start);
    GrownNone(match', 0);
    while rest != {}
      invariant rest <= peers && added == peers - rest - next.Keys
      invariant a == Grown(next, added, start) && b == Grown(match', added, 0)
      decreases |rest|
    {
      var p :| p in rest;
      Through(peers, rest, next.Keys, p);
      rest := rest - {p};
      if p !in next {
        GrownOne(next, added, start, p);
        GrownOne(match', added, 0, p);
        added := added + {p};
        a, b := a[p := start], b[p := 0];
      }
    }
    assert added == peers - next.Keys;
  }

  /** Those that are no longer peers lose theirs. */
  method DropPeers(next: map<Id, nat>, match': map<Id, nat>, flying: set<Id>, peers: set<Id>)
    returns (a: map<Id, nat>, b: map<Id, nat>, left: set<Id>)
    ensures a == Without(next, next.Keys - peers) && b == Without(match', next.Keys - peers)
    ensures left == flying - (next.Keys - peers)
  {
    hide Without;
    a, b, left := next, match', flying;
    var rest := next.Keys;
    ghost var dropped: set<Id> := {};
    WithoutNone(next);
    WithoutNone(match');
    while rest != {}
      invariant rest <= next.Keys && dropped == next.Keys - rest - peers
      invariant a == Without(next, dropped) && b == Without(match', dropped) && left == flying - dropped
      decreases |rest|
    {
      var p :| p in rest;
      Through(next.Keys, rest, peers, p);
      rest := rest - {p};
      if p !in peers {
        WithoutOne(next, dropped, p);
        WithoutOne(match', dropped, p);
        dropped := dropped + {p};
        a, b, left := a - {p}, b - {p}, left - {p};
      }
    }
    assert dropped == next.Keys - peers;
  }

  /** The leader's index maps for a changed set of peers. */
  function Tracked(next: map<Id, nat>, match': map<Id, nat>, peers: set<Id>, start: nat): (map<Id, nat>, map<Id, nat>) {
    var added, dropped := peers - next.Keys, next.Keys - peers;
    (Without(Grown(next, added, start), dropped), Without(Grown(match', added, 0), dropped))
  }

  lemma ConfigTracks(n: P.Node, members: Members, index: nat)
    ensures var m := n.(cfg := n.cfg.(members := members, configIndex := index, joining := n.cfg.joining && n.id !in members));
            var (next, match') := Tracked(n.nextIndex, n.matchIndex, P.Peers(m), n.log.LastIndex() + 1);
            P.ApplyConfig(n, members, index) == if n.role == Leader then m.(nextIndex := next, matchIndex := match') else m
  {
    hide P.Peers, RLog.LastIndex;
    var m := n.(cfg := n.cfg.(members := members, configIndex := index, joining := n.cfg.joining && n.id !in members));
    TrackedMaps(n.nextIndex, n.matchIndex, P.Peers(m), n.log.LastIndex() + 1);
  }

  /** The next indices are those of the peers. */
  lemma TrackedKeys(next: map<Id, nat>, match': map<Id, nat>, peers: set<Id>, start: nat)
    ensures Tracked(next, match', peers, start).0.Keys == peers
    ensures Grown(next, peers - next.Keys, start).Keys - peers == next.Keys - peers
  {
    TrackedMaps(next, match', peers, start);
    GrownKeys(next, peers, start);
  }

  lemma TrackedMaps(next: map<Id, nat>, match': map<Id, nat>, peers: set<Id>, start: nat)
    ensures var (a, b), added := Tracked(next, match', peers, start), peers - next.Keys;
            && a == (map p | p in peers :: if p in added then start else next[p])
            && b == (map p | p in match'.Keys + added && (p in peers || p !in next) :: if p in added then 0 else match'[p])
  {
  }

  /** A leader's fields before its empty entry. */
  function Claimed(n: P.Node): P.Node {
    n.(role := Leader, leaderId := Some(n.id),
       nextIndex := map p | p in P.Peers(n) :: n.log.LastIndex() + 1,
       matchIndex := map p | p in P.Peers(n) :: 0,
       termStart := n.log.LastIndex() + 1)
  }

  lemma ClaimedFields(n: P.Node, next: map<Id, nat>, match': map<Id, nat>, peers: Members)
    requires peers == n.cfg.members - {n.id}
    requires next == (map p | p in peers.Keys :: n.log.LastIndex() + 1) && match' == map p | p in peers.Keys :: 0
    ensures Claimed(n) == n.(role := Leader, leaderId := Some(n.id), nextIndex := next, matchIndex := match',
                             termStart := n.log.LastIndex() + 1)
  {
  }

  lemma PeerIds(members: Members, id: Id)
    ensures (members - {id}).Keys == members.Keys - {id}
  {
  }

  lemma CommitStart(n: P.Node)
    requires n.log.Valid()
    ensures P.CommitUpTo(n, n.commitIndex) == n.commitIndex
  {
  }

  /** One step up: what was found so far does not matter to what may be committed. */
  lemma CommitNext(n: P.Node, commit: nat, idx: nat)
    requires n.log.Valid() && idx > n.commitIndex
    ensures P.CommitUpTo(n, idx) ==
            if n.log.TermAt(idx) == n.term && 1 + |P.Holders(n.(commitIndex := commit), idx)| >= P.Majority(n.(commitIndex := commit))
            then idx else P.CommitUpTo(n, idx - 1)
  {
  }

  /** Past the end of the log there is nothing to commit. */
  lemma BeyondEnd(n: P.Node, idx: nat, last: nat)
    requires n.log.Valid() && last == n.log.LastIndex() && (idx == last || (idx == n.commitIndex && last <= n.commitIndex))
    ensures P.CommitUpTo(n, idx) == P.CommitUpTo(n, last)
  {
  }

  // ---- Telling the waiting calls ----

  /** The channels when every call in `waiters` has been told but those at the indices in `left`. */
  ghost function ToldPart(waiters: map<nat, nat>, left: set<nat>, sent: map<nat, seq<P.Outcome>>): map<nat, seq<P.Outcome>> {
    var told := set i | i in waiters && i !in left :: waiters[i];
    map c | c in sent.Keys + told ::
      if c in told then (if c in sent then sent[c] else []) + [P.NotLeader] else sent[c]
  }

  ghost function Told(waiters: map<nat, nat>, sent: map<nat, seq<P.Outcome>>): map<nat, seq<P.Outcome>> {
    ToldPart(waiters, {}, sent)
  }

  lemma ToldStart(waiters: map<nat, nat>, sent: map<nat, seq<P.Outcome>>)
    ensures ToldPart(waiters, waiters.Keys, sent) == sent
  {
  }

  lemma ToldAll(waiters: map<nat, nat>, left: map<nat, nat>, sent: map<nat, seq<P.Outcome>>)
    requires left == map[]
    ensures ToldPart(waiters, left.Keys, sent) == Told(waiters, sent)
  {
  }

  lemma ToldOne(waiters: map<nat, nat>, left: set<nat>, sent: map<nat, seq<P.Outcome>>, i: nat)
    requires Distinct(waiters) && left <= waiters.Keys && i in left
    ensures var s, c := ToldPart(waiters, left, sent), waiters[i];
            ToldPart(waiters, left - {i}, sent) == s[c := (if c in s then s[c] else []) + [P.NotLeader]]
  {
  }

  lemma FlushTells(n: P.Node)
    ensures P.Flush(n) == n.(waiters := map[], sent := Told(n.waiters, n.sent))
  {
  }

  lemma FollowerFields(n: P.Node, t: nat)
    ensures P.BecomeFollower(n, t) ==
            n.(role := Follower, recent := true,
               term := if t > n.term then t else n.term,
               votedFor := if t > n.term then None else n.votedFor,
               waiters := if n.role == Leader then map[] else n.waiters,
               sent := if n.role == Leader then Told(n.waiters, n.sent) else n.sent)
  {
    hide P.Flush, Told;
    FlushTells(n);
  }
}

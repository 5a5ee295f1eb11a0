/**
  Catching up: a new leader finds out where a follower's log departs from its own,
  backs off, sends a snapshot if the entries needed are gone, and ends with the
  follower holding its whole log. One request is outstanding at a time and none is
  lost; the leader's log stays as it is meanwhile.
 */
module CatchUp {
  import opened Wrappers
  import opened RaftTypes
  import opened CompactLog
  import opened LogRefinement
  import opened Protocol
  import opened Snapshots

  // ---- One exchange ----

  lemma BuildWellFormed(l: Node, peer: Id)
    requires l.log.Valid()
    ensures BuildAppend(l, peer).Some? ==> WellFormed(BuildAppend(l, peer).value)
  {
  }

  lemma AppendValid(f: Node, req: AppendReq)
    requires f.log.Valid() && WellFormed(req)
    ensures HandleAppend(f, req).0.log.Valid()
  {
  }

  lemma InstallValid(f: Node, req: InstallReq)
    requires f.log.Valid()
    ensures HandleInstall(f, req).0.log.Valid()
  {
    hide ApplyConfig, HandleInstall;
    InstallLog(f, req);
  }

  lemma RespValid(l: Node, req: AppendReq, resp: AppendResp)
    requires l.log.Valid()
    ensures OnAppendResp(l, req, resp).log == l.log
  {
  }

  lemma HeardFields(f: Node, req: InstallReq)
    requires req.term >= f.term
    ensures var m := Heard(f, req); m.log == f.log && m.commitIndex == f.commitIndex && m.term == req.term && m.id == f.id
  {
  }

  lemma InstallFields(n: Node, s: Snapshot)
    requires n.log.Valid()
    ensures Install(n, s).log == n.log.CompactTo(s.index, s.term) && Install(n, s).commitIndex == s.index
    ensures Install(n, s).term == n.term && Install(n, s).id == n.id
  {
    hide RLog.CompactTo, RLog.Valid, RLog.LastIndex;
  }

  lemma InstallLog(f: Node, req: InstallReq)
    requires f.log.Valid()
    ensures var n, installs := HandleInstall(f, req).0, req.term >= f.term && req.snapshot.index > f.commitIndex;
            && n.log == (if installs then f.log.CompactTo(req.snapshot.index, req.snapshot.term) else f.log)
            && n.commitIndex == (if installs then req.snapshot.index else f.commitIndex)
    ensures req.term >= f.term ==>
              HandleInstall(f, req).0.term == req.term && HandleInstall(f, req).1 == req.term && HandleInstall(f, req).0.id == f.id
  {
    hide Heard, Install, RLog.CompactTo;
    if req.term >= f.term {
      HeardFields(f, req);
      InstallFields(Heard(f, req), req.snapshot);
    }
  }

  /** The leader asks the follower and takes in the answer; `s` is the snapshot it has on disk. */
  function Exchange(l: Node, f: Node, s: Snapshot): (r: (Node, Node))
    requires l.log.Valid() && f.log.Valid()
    ensures r.0.log.Valid() && r.1.log.Valid()
  {
    match BuildAppend(l, f.id)
    case Some(req) =>
      BuildWellFormed(l, f.id);
      AppendValid(f, req);
      var (g, resp) := HandleAppend(f, req);
      RespValid(l, req, resp);
      (OnAppendResp(l, req, resp), g)
    case None =>
      var req := InstallReq(l.id, f.id, l.term, s);
      InstallValid(f, req);
      var (g, t) := HandleInstall(f, req);
      (OnInstallResp(l, req, t), g)
  }

  function Exchanges(l: Node, f: Node, s: Snapshot, rounds: nat): (r: (Node, Node))
    requires l.log.Valid() && f.log.Valid()
    ensures r.0.log.Valid() && r.1.log.Valid()
    decreases rounds
  {
    if rounds == 0 then (l, f)
    else
      var (m, g) := Exchange(l, f, s);
      Exchanges(m, g, s, rounds - 1)
  }

  /** How many of the rounds send a snapshot. */
  function SnapshotsSent(l: Node, f: Node, s: Snapshot, rounds: nat): nat
    requires l.log.Valid() && f.log.Valid()
    decreases rounds
  {
    if rounds == 0 then 0
    else
      var (m, g) := Exchange(l, f, s);
      (if BuildAppend(l, f.id).None? then 1 else 0) + SnapshotsSent(m, g, s, rounds - 1)
  }

  // ---- The append loop on a compacted log ----

  function Full(es: seq<Entry>): RLog {
    RLog(0, 0, es)
  }

  lemma MergeOneViews(f: RLog, full: seq<Entry>, e: Entry)
    requires Views(f, full) && f.Valid() && Full(full).Valid() && f.snapIndex < e.index <= |full| + 1
    ensures f.LastIndex() == |full| == Full(full).LastIndex()
    ensures Views(MergeOne(f, e), MergeOne(Full(full), e).entries)
  {
    hide Views;
    QueriesAgree(f, full, e.index);
    FullView(full);
    QueriesAgree(Full(full), full, e.index);
    if e.index <= |full| {
      if f.TermAt(e.index) != e.term {
        TruncateKeepsView(f, full, e.index);
        TruncateKeepsView(Full(full), full, e.index);
        FullTruncated(full, e.index);
        AppendKeepsView(f.TruncateFrom(e.index), full[..e.index - 1], e);
      }
    } else {
      AppendKeepsView(f, full, e);
    }
  }

  lemma FullView(full: seq<Entry>)
    requires Contiguous(full, 1)
    ensures Views(Full(full), full) && Full(full).Valid()
  {
  }

  lemma FullTruncated(full: seq<Entry>, i: nat)
    requires Full(full).Valid() && 0 < i <= |full|
    ensures Full(full).TruncateFrom(i) == Full(full[..i - 1])
  {
  }

  lemma ViewContiguous(f: RLog, full: seq<Entry>)
    requires Views(f, full)
    ensures Contiguous(full, 1) && f.Valid() && f.LastIndex() == |full| && f.snapIndex <= |full|
  {
  }

  /** The loop does to a compacted log what it would do to the full one. */
  lemma {:induction false} MergeViews(f: RLog, full: seq<Entry>, es: seq<Entry>)
    requires Views(f, full) && f.Valid() && Full(full).Valid() && Fits(f, es) && Fits(Full(full), es)
    requires |es| > 0 ==> es[0].index > f.snapIndex
    ensures Views(Merge(f, es), Merge(Full(full), es).entries)
  {
    hide Views, MergeOne, RLog.LastIndex;
    if |es| == 0 {
      assert Merge(Full(full), es).entries == full;
    } else {
      var init, e := es[..|es| - 1], es[|es| - 1];
      MergeViews(f, full, init);
      var m, n := Merge(f, init), Merge(Full(full), init);
      ViewContiguous(m, n.entries);
      assert n == Full(n.entries);
      FullView(n.entries);
      ViewContiguous(n, n.entries);
      assert e.index == es[0].index + |es| - 1;
      MergeOneViews(m, n.entries, e);
    }
  }

  // ---- What both hold ----

  /**
    The leader's log and the follower's, uncompacted: they share what the follower has
    committed, and wherever they have an entry of the same index and term they agree up
    to it. The leader's next index for the follower is past what the follower has
    committed.
   */
  ghost predicate Ready(l: Node, f: Node, lead: seq<Entry>, foll: seq<Entry>) {
    && l.role == Leader && f.id in l.nextIndex && f.term <= l.term
    && Views(l.log, lead) && Views(f.log, foll)
    && l.commitIndex <= |lead| && f.log.snapIndex <= f.commitIndex
    && Agree(foll, lead, f.commitIndex) && Matches(foll, lead)
    && f.commitIndex + 1 <= l.nextIndex[f.id] <= |lead| + 1
    && Lookup(l.matchIndex, f.id) <= f.commitIndex
  }

  /** The follower's log is the leader's, as far as the leader's goes, and the leader knows. */
  ghost predicate Done(l: Node, f: Node, lead: seq<Entry>) {
    && Lookup(l.matchIndex, f.id) == |lead|
    && exists foll :: Views(f.log, foll) && Agree(foll, lead, |lead|)
  }

  /** The request the leader builds is its log from the next index on. */
  lemma RequestTail(l: Node, f: Node, lead: seq<Entry>, foll: seq<Entry>)
    requires Ready(l, f, lead, foll) && l.log.Valid() && l.nextIndex[f.id] > l.log.snapIndex
    ensures var next := l.nextIndex[f.id];
            BuildAppend(l, f.id) ==
            Some(AppendReq(l.id, f.id, None, l.term, next - 1, FullTerm(lead, next - 1), lead[next - 1..], l.commitIndex))
  {
    hide RLog.TermAt, RLog.From, Views;
    var next := l.nextIndex[f.id];
    QueriesAgree(l.log, lead, next - 1);
    QueriesAgree(l.log, lead, next);
    assert next == |lead| + 1 ==> lead[next - 1..] == [];
  }

  /** The follower refuses exactly where the logs do not agree up to the preceding entry. */
  lemma RefusesIff(l: Node, f: Node, m: Node, lead: seq<Entry>, foll: seq<Entry>, req: AppendReq)
    requires Ready(l, f, lead, foll) && m.log == f.log && m.log.Valid()
    requires req.prevIndex == l.nextIndex[f.id] - 1 && req.prevTerm == FullTerm(lead, req.prevIndex)
    ensures Mismatch(m, req) <==> !Agree(foll, lead, req.prevIndex)
    ensures Mismatch(m, req) ==> req.prevIndex > f.commitIndex
  {
    hide RLog.TermAt;
    var k := req.prevIndex;
    QueriesAgree(f.log, foll, k);
    if k > 0 && k <= |foll| {
      assert Agree(foll, lead, k) ==> foll[k - 1] == foll[..k][k - 1] == lead[..k][k - 1] == lead[k - 1];
      assert foll[k - 1].term == lead[k - 1].term ==> Agree(foll, lead, k);
    }
  }

  // ---- Three ways an exchange may go ----

  lemma AcknowledgedTerm(f: Node, req: AppendReq)
    requires req.term >= f.term
    ensures Acknowledge(f, req).term == req.term && Acknowledge(f, req).id == f.id
  {
  }

  lemma Refused(l: Node, f: Node, req: AppendReq)
    requires f.log.Valid() && l.log.Valid() && WellFormed(req) && req.term == l.term >= f.term && l.role == Leader && req.to == f.id
    requires Mismatch(Acknowledge(f, req), req)
    ensures var (g, resp) := HandleAppend(f, req);
            && g.log == f.log && g.commitIndex == f.commitIndex && g.term == l.term && g.id == f.id
            && OnAppendResp(l, req, resp)
               == l.(nextIndex := l.nextIndex[f.id := BackOff(Lookup(l.nextIndex, f.id), Min(f.log.LastIndex(), req.prevIndex - 1))])
  {
  }

  /**
    A rejection lowers the next index, though never to what the follower has committed,
    to behind the follower's last entry at once if that is less, and changes no log.
   */
  lemma RejectionLowers(l: Node, f: Node, s: Snapshot, lead: seq<Entry>, foll: seq<Entry>)
    requires Ready(l, f, lead, foll) && l.log.Valid() && f.log.Valid()
    requires l.nextIndex[f.id] > l.log.snapIndex && !Agree(foll, lead, l.nextIndex[f.id] - 1)
    ensures BuildAppend(l, f.id).Some?
    ensures var (m, g) := Exchange(l, f, s);
            && Ready(m, g, lead, foll) && g.id == f.id && m.nextIndex[f.id] < l.nextIndex[f.id] && m.log == l.log
            && m.nextIndex[f.id] == if f.log.LastIndex() + 1 < l.nextIndex[f.id] then f.log.LastIndex() + 1 else l.nextIndex[f.id] - 1
  {
    hide HandleAppend, OnAppendResp, Acknowledge, Mismatch, BuildAppend, Views, Matches, Agree, RLog.Valid, RLog.LastIndex;
    RequestTail(l, f, lead, foll);
    var req := BuildAppend(l, f.id).value;
    BuildWellFormed(l, f.id);
    AcknowledgeFields(f, req);
    RefusesIff(l, f, Acknowledge(f, req), lead, foll, req);
    Refused(l, f, req);
    ViewContiguous(f.log, foll);
    AgreeLength(foll, lead, f.commitIndex);
  }

  lemma AgreeLength(a: seq<Entry>, b: seq<Entry>, n: nat)
    requires Agree(a, b, n)
    ensures n <= |a| && n <= |b|
  {
  }

  lemma Accepted(l: Node, f: Node, req: AppendReq)
    requires f.log.Valid() && l.log.Valid() && WellFormed(req) && req.term == l.term >= f.term && l.role == Leader && req.to == f.id
    requires !Mismatch(Acknowledge(f, req), req)
    ensures Fits(f.log, req.entries)
    ensures var (g, resp) := HandleAppend(f, req);
            && g.log == Merge(f.log, req.entries)
            && Lookup(OnAppendResp(l, req, resp).matchIndex, f.id)
               == (if req.prevIndex + |req.entries| > Lookup(l.matchIndex, f.id) then req.prevIndex + |req.entries| else Lookup(l.matchIndex, f.id))
  {
    hide Acknowledge, MergeEntries, CommitUpTo, Merge, RLog.LastIndex, RLog.Valid, WellFormed, Fits, Mismatch;
    AcknowledgeFields(f, req);
    AcknowledgedTerm(f, req);
    FitsWhenAccepted(Acknowledge(f, req), req);
  }

  lemma FitsWhenAccepted(n: Node, req: AppendReq)
    requires n.log.Valid() && WellFormed(req) && !Mismatch(n, req)
    ensures Fits(n.log, req.entries)
  {
  }

  /** An accepted request brings the follower to the end of the leader's log at once. */
  lemma AcceptanceCompletes(l: Node, f: Node, s: Snapshot, lead: seq<Entry>, foll: seq<Entry>)
    requires Ready(l, f, lead, foll) && l.log.Valid() && f.log.Valid()
    requires l.nextIndex[f.id] > l.log.snapIndex && Agree(foll, lead, l.nextIndex[f.id] - 1)
    ensures BuildAppend(l, f.id).Some?
    ensures var (m, g) := Exchange(l, f, s); g.id == f.id && Done(m, g, lead)
  {
    hide HandleAppend, OnAppendResp, Acknowledge, Mismatch, BuildAppend, Views, Matches, RLog.Valid, RLog.LastIndex, Merge, Fits, Lookup;
    RequestTail(l, f, lead, foll);
    var req := BuildAppend(l, f.id).value;
    BuildWellFormed(l, f.id);
    AcknowledgeFields(f, req);
    RefusesIff(l, f, Acknowledge(f, req), lead, foll, req);
    Accepted(l, f, req);
    ViewContiguous(f.log, foll);
    ViewContiguous(l.log, lead);
    Merged(f.log, foll, lead, req.prevIndex);
    AppendId(f, req);
  }

  lemma AppendId(f: Node, req: AppendReq)
    requires f.log.Valid() && WellFormed(req) && req.term >= f.term
    ensures HandleAppend(f, req).0.id == f.id
  {
    hide Acknowledge, MergeEntries, Mismatch, RLog.Valid, WellFormed, Merge;
    AcknowledgedTerm(f, req);
    AcknowledgeFields(f, req);
    if !Mismatch(Acknowledge(f, req), req) {
      FitsWhenAccepted(Acknowledge(f, req), req);
      MergeTouches(Acknowledge(f, req), req.entries);
    }
  }

  lemma Merged(f: RLog, foll: seq<Entry>, lead: seq<Entry>, prev: nat)
    requires Views(f, foll) && f.Valid() && Contiguous(lead, 1) && Contiguous(foll, 1) && f.snapIndex <= prev <= |lead|
    requires Agree(foll, lead, prev) && Matches(foll, lead) && Fits(f, lead[prev..])
    ensures exists full :: Views(Merge(f, lead[prev..]), full) && Agree(full, lead, |lead|)
  {
    hide Merge, Matches, Views;
    var es := lead[prev..];
    ViewContiguous(f, foll);
    FullView(foll);
    ViewContiguous(Full(foll), foll);
    MergeViews(f, foll, es);
    MergeFollows(Full(foll), es, lead, prev);
    assert Agree(Merge(Full(foll), es).entries, lead, prev + |es|);
  }

  /** A snapshot gives the follower the leader's log up to the boundary; what it has past that stays. */
  lemma SnapshotBrings(l: Node, f: Node, s: Snapshot, lead: seq<Entry>, foll: seq<Entry>) returns (full: seq<Entry>)
    requires Ready(l, f, lead, foll) && l.log.Valid() && f.log.Valid()
    requires l.nextIndex[f.id] <= l.log.snapIndex && s.index == l.log.snapIndex && s.term == l.log.snapTerm
    ensures BuildAppend(l, f.id).None?
    ensures var (m, g) := Exchange(l, f, s);
            && Ready(m, g, lead, full) && g.id == f.id && m.log == l.log
            && m.nextIndex[f.id] == s.index + 1 && Agree(full, lead, s.index)
  {
    hide HandleInstall, Views, Matches, Agree, RLog.Valid, RLog.LastIndex, RLog.CompactTo;
    var req := InstallReq(l.id, f.id, l.term, s);
    InstallLog(f, req);
    ViewContiguous(l.log, lead);
    full := lead[..s.index] + Tail(foll, s.index);
    Installed(l, f, s, lead, foll);
    var g := HandleInstall(f, req).0;
    assert OnInstallResp(l, req, l.term) == l.(matchIndex := l.matchIndex[f.id := s.index], nextIndex := l.nextIndex[f.id := s.index + 1]);
  }

  function Tail(es: seq<Entry>, n: nat): seq<Entry> {
    if n >= |es| then [] else es[n..]
  }

  lemma Installed(l: Node, f: Node, s: Snapshot, lead: seq<Entry>, foll: seq<Entry>)
    requires Ready(l, f, lead, foll) && l.log.Valid() && f.log.Valid()
    requires f.commitIndex < s.index == l.log.snapIndex <= |lead| && s.term == l.log.snapTerm
    ensures var full := lead[..s.index] + Tail(foll, s.index);
            && Views(f.log.CompactTo(s.index, s.term), full) && Matches(full, lead) && Agree(full, lead, s.index)
            && f.log.CompactTo(s.index, s.term).snapIndex == s.index
  {
    var full := lead[..s.index] + Tail(foll, s.index);
    assert full[..s.index] == lead[..s.index];
    assert full[s.index..] == Tail(foll, s.index);
    assert |foll| > s.index ==> foll[f.log.snapIndex..][s.index - f.log.snapIndex..] == foll[s.index..];
    forall k | 0 <= k < |full| && k < |lead| && full[k].term == lead[k].term
      ensures Agree(full, lead, k + 1)
    {
      if k < s.index {
        assert full[..k + 1] == full[..s.index][..k + 1] == lead[..k + 1];
      } else {
        assert full[k] == foll[k];
        assert Agree(foll, lead, k + 1);
        assert full[..k + 1] == lead[..s.index] + foll[s.index..k + 1];
        assert lead[s.index..k + 1] == lead[..k + 1][s.index..] == foll[..k + 1][s.index..] == foll[s.index..k + 1];
      }
    }
  }

  // ---- The whole exchange ----

  /** The snapshot on the leader's disk is the one at its log's boundary. */
  predicate AtBoundary(l: Node, s: Snapshot) {
    s.index == l.log.snapIndex && s.term == l.log.snapTerm
  }

  lemma OneMoreRound(l: Node, f: Node, s: Snapshot, rounds: nat)
    requires l.log.Valid() && f.log.Valid()
    ensures var (m, g) := Exchange(l, f, s);
            && Exchanges(l, f, s, rounds + 1) == Exchanges(m, g, s, rounds)
            && SnapshotsSent(l, f, s, rounds + 1) ==
               (if BuildAppend(l, f.id).None? then 1 else 0) + SnapshotsSent(m, g, s, rounds)
    ensures Exchanges(l, f, s, 0) == (l, f) && SnapshotsSent(l, f, s, 0) == 0
  {
  }

  /**
    The exchange ends, with at most one snapshot sent, and then the follower's log
    agrees with the leader's up to the leader's last index.
   */
  lemma {:induction false} CatchesUp(l: Node, f: Node, s: Snapshot, lead: seq<Entry>, foll: seq<Entry>) returns (rounds: nat)
    requires Ready(l, f, lead, foll) && l.log.Valid() && f.log.Valid() && AtBoundary(l, s)
    ensures rounds <= l.nextIndex[f.id] - f.commitIndex + 1
    ensures var (m, g) := Exchanges(l, f, s, rounds); g.id == f.id && Done(m, g, lead)
    ensures SnapshotsSent(l, f, s, rounds) <= 1
    decreases l.nextIndex[f.id]
  {
    hide Exchange, Exchanges, SnapshotsSent, BuildAppend, Done, Views, Matches, RLog.Valid, Agree;
    var next := l.nextIndex[f.id];
    var (m, g) := Exchange(l, f, s);
    if next <= l.log.snapIndex {
      var full := SnapshotBrings(l, f, s, lead, foll);
      AcceptanceCompletes(m, g, s, lead, full);
      var (o, h) := Exchange(m, g, s);
      OneMoreRound(m, g, s, 0);
      OneMoreRound(o, h, s, 0);
      OneMoreRound(l, f, s, 1);
      rounds := 2;
    } else if Agree(foll, lead, next - 1) {
      AcceptanceCompletes(l, f, s, lead, foll);
      OneMoreRound(l, f, s, 0);
      OneMoreRound(m, g, s, 0);
      rounds := 1;
    } else {
      RejectionLowers(l, f, s, lead, foll);
      SameCommit(l, f, s, lead, foll);
      var rest := CatchesUp(m, g, s, lead, foll);
      OneMoreRound(l, f, s, rest);
      rounds := rest + 1;
    }
  }

  lemma SameCommit(l: Node, f: Node, s: Snapshot, lead: seq<Entry>, foll: seq<Entry>)
    requires Ready(l, f, lead, foll) && l.log.Valid() && f.log.Valid()
    requires l.nextIndex[f.id] > l.log.snapIndex && !Agree(foll, lead, l.nextIndex[f.id] - 1)
    ensures Exchange(l, f, s).1.commitIndex == f.commitIndex
  {
    hide HandleAppend, OnAppendResp, Acknowledge, Mismatch, BuildAppend, Views, Matches, Agree, RLog.Valid, RLog.LastIndex;
    RequestTail(l, f, lead, foll);
    var req := BuildAppend(l, f.id).value;
    BuildWellFormed(l, f.id);
    AcknowledgeFields(f, req);
    RefusesIff(l, f, Acknowledge(f, req), lead, foll, req);
    Refused(l, f, req);
  }

  /** A candidate that becomes leader is ready for each of its peers. */
  lemma NewLeaderReady(n: Node, f: Node, before: seq<Entry>, foll: seq<Entry>)
    requires n.log.Valid() && Views(n.log, before) && Views(f.log, foll) && f.id in Peers(n) && f.term <= n.term
    requires n.commitIndex <= |before| && f.log.snapIndex <= f.commitIndex <= |before|
    requires var lead := before + [Entry(n.term, |before| + 1, Noop)];
             Agree(foll, lead, f.commitIndex) && Matches(foll, lead)
    ensures Ready(BecomeLeader(n), f, before + [Entry(n.term, |before| + 1, Noop)], foll) && BecomeLeader(n).log.Valid()
    ensures BecomeLeader(n).nextIndex[f.id] == |before| + 1
  {
    hide CommitUpTo, CanCommit, Views, Matches, Agree, RLog.LastIndex, RLog.Valid, TakeLead, Majority;
    ViewContiguous(n.log, before);
    var lead := before + [Entry(n.term, |before| + 1, Noop)];
    TakesLead(n, f.id, |before|);
    AppendKeepsView(n.log, before, Entry(n.term, |before| + 1, Noop));
    var l := TakeLead(n);
    ViewContiguous(l.log, lead);
    CommitFound(l, l.log.LastIndex());
  }

  lemma TakesLead(n: Node, peer: Id, last: nat)
    requires peer in Peers(n) && n.log.LastIndex() == last
    ensures var l := TakeLead(n);
            && l.role == Leader && l.term == n.term && l.commitIndex == n.commitIndex
            && peer in l.nextIndex && l.nextIndex[peer] == last + 1 && Lookup(l.matchIndex, peer) == 0
            && l.log == n.log.Append(Entry(n.term, last + 1, Noop))
  {
    hide RLog.LastIndex, RLog.Append;
  }

  /** From the next index a new leader starts with, whatever the follower has past its committed prefix. */
  lemma CatchesUpAfterElection(n: Node, f: Node, s: Snapshot, before: seq<Entry>, foll: seq<Entry>) returns (rounds: nat)
    requires n.log.Valid() && f.log.Valid() && Views(n.log, before) && Views(f.log, foll) && f.id in Peers(n) && f.term <= n.term
    requires n.commitIndex <= |before| && f.log.snapIndex <= f.commitIndex <= |before| && AtBoundary(n, s)
    requires var lead := before + [Entry(n.term, |before| + 1, Noop)];
             Agree(foll, lead, f.commitIndex) && Matches(foll, lead)
    ensures BecomeLeader(n).log.Valid() && rounds <= |before| + 2
    ensures var (m, g) := Exchanges(BecomeLeader(n), f, s, rounds);
            g.id == f.id && Done(m, g, before + [Entry(n.term, |before| + 1, Noop)])
    ensures SnapshotsSent(BecomeLeader(n), f, s, rounds) <= 1
  {
    hide Exchanges, SnapshotsSent, Done, Views, Matches, RLog.Valid, Agree, CommitUpTo;
    NewLeaderReady(n, f, before, foll);
    rounds := CatchesUp(BecomeLeader(n), f, s, before + [Entry(n.term, |before| + 1, Noop)], foll);
  }

  /**
    That an equal index and term mean an equal entry is not enough: here they do, the
    follower accepts the first request, and the logs still differ below it.
   */
  lemma EqualEntriesDoNotSuffice() returns (lead: seq<Entry>, foll: seq<Entry>, f: Node, req: AppendReq)
    ensures Contiguous(lead, 1) && Contiguous(foll, 1) && f.log == Full(foll) && f.log.Valid() && WellFormed(req)
    ensures forall i | 0 <= i < |lead| && i < |foll| && lead[i].term == foll[i].term :: lead[i] == foll[i]
    ensures req.prevIndex == |lead| && req.prevTerm == FullTerm(lead, |lead|) && req.entries == lead[|lead|..]
    ensures HandleAppend(f, req).1.success && HandleAppend(f, req).0.log == f.log && !Agree(foll, lead, |lead|)
  {
    lead := [Entry(2, 1, Noop), Entry(3, 2, Noop)];
    foll := [Entry(1, 1, Noop), Entry(3, 2, Noop)];
    f := Node("b", Follower, 4, None, None, Full(foll), 0, 0, map[], map[], 0, {}, true,
              Membership(map[], map[], map[], 0, false), map[], map[]);
    req := AppendReq("a", "b", None, 4, 2, 3, [], 0);
    assert foll[..2][0] != lead[..2][0];
  }
}

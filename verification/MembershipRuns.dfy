/**
  The configuration over whole runs of a group of nodes: elections, entries taken in
  and cut, membership changes, snapshots taken, sent and installed, restarts. Whatever
  happens, each node's configuration is the one its log, its snapshot and its start-up
  flags determine.
 */
module MembershipRuns {
  import opened Wrappers
  import opened RaftTypes
  import opened CompactLog
  import opened Protocol
  import opened Snapshots
  import opened MembershipRules
  import StoreSpec

  /** A node and the snapshot file it has on disk; index 0 stands for no file. */
  datatype Site = Site(node: Node, file: Snapshot)

  /** What may happen at a node. */
  datatype Event =
    | Receive(entries: seq<Entry>)                // from a leader, with cuts where they conflict
    | Follow(term: nat)                           // a later term, or the leader of this one, is heard of
    | Stand                                       // for election; a cluster of one is led at once
    | Win                                         // the election
    | Command(command: RaftTypes.Command, call: nat)
    | ChangeMembers(change: Change, call: nat)
    | Advance(commit: nat, applied: nat)          // commit and apply indices move on
    | TakeSnapshot(data: StoreSpec.Data)          // at the apply index, in one step
    | SendSnapshot                                // the file on disk, to any node
    | InstallSnapshot(snapshot: Snapshot)
    | Reboot(join: bool, applied: nat)

  predicate Ordered(n: Node) {
    n.log.snapIndex <= n.lastApplied <= n.commitIndex
  }

  /** Entries fit and no configuration is empty; leaders lead and candidates win; indices only grow. */
  predicate MayHappen(s: Site, ev: Event) {
    var n := s.node;
    match ev
    case Receive(es) => Fits(n.log, es) && EntriesPopulated(es)
    case Follow(_) => true
    case Stand => n.role != Leader
    case Win => n.role == Candidate
    case Command(_, _) => n.role == Leader
    case ChangeMembers(c, _) =>
      n.role == Leader && (Changed(n.cfg.members, n.id, c).Some? ==> |Changed(n.cfg.members, n.id, c).value| > 0)
    case Advance(commit, applied) => n.commitIndex <= commit && n.lastApplied <= applied <= commit
    case TakeSnapshot(_) => true
    case SendSnapshot => s.file.index > 0
    case InstallSnapshot(snap) => snap.index > n.commitIndex
    case Reboot(_, _) => true
  }

  function Happens(s: Site, ev: Event): Site
    requires s.node.log.Valid() && MayHappen(s, ev)
  {
    var n := s.node;
    match ev
    case Receive(es) => s.(node := MergeEntries(n, es))
    case Follow(term) => s.(node := BecomeFollower(n, term))
    case Stand => s.(node := StartElection(n))
    case Win => s.(node := BecomeLeader(n))
    case Command(c, call) => s.(node := Propose(n, Normal(c), call))
    case ChangeMembers(c, call) =>
      (match ProposeConfig(n, c, call)
       case Accepted(m) => s.(node := m)
       case Refused(_) => s)
    case Advance(commit, applied) => s.(node := n.(commitIndex := commit, lastApplied := applied))
    case TakeSnapshot(data) =>
      if n.lastApplied <= n.log.snapIndex then s
      else
        var term := n.log.TermAt(n.lastApplied);
        Site(Compact(n, n.lastApplied, term, n.cfg.members), Snapshot(n.lastApplied, term, data, n.cfg.members))
    case SendSnapshot => s
    case InstallSnapshot(snap) => Site(Install(n, snap), snap)
    case Reboot(join, applied) =>
      s.(node := Boot(n.id, n.term, n.votedFor, n.log, s.file.members, n.cfg.bootstrap, join, applied))
  }

  /** The configuration is derived, and the file on disk is the one the log's boundary and the node know. */
  predicate SiteOk(s: Site) {
    && Derived(s.node) && Ordered(s.node)
    && s.file.index == s.node.log.snapIndex && s.file.members == s.node.cfg.snapMembers
    && (s.file.index > 0 ==> |s.file.members| > 0)
  }

  // ---- One event ----

  lemma AppendDerives(n: Node, e: Entry, m: Node)
    requires Derived(n) && n.log.Valid() && e.index == n.log.LastIndex() + 1 && !e.payload.Config?
    requires m.log == n.log.Append(e) && m.cfg == n.cfg
    ensures Derived(m)
  {
    hide LastConfig;
    LastConfigAppend(n.log.entries, e);
  }

  lemma SameConfig(n: Node, m: Node)
    requires Derived(n) && m.log == n.log && m.cfg == n.cfg
    ensures Derived(m)
  {
  }

  lemma CommitDerives(n: Node)
    requires Derived(n) && Ordered(n) && n.log.Valid()
    ensures Derived(AdvanceCommit(n)) && Ordered(AdvanceCommit(n))
  {
    hide CommitUpTo, Derived, RLog.Valid, RLog.LastIndex;
    CommitFound(n, n.log.LastIndex());
    SameConfig(n, AdvanceCommit(n));
  }

  lemma LeadDerives(n: Node)
    requires Derived(n) && Ordered(n) && n.log.Valid()
    ensures Derived(BecomeLeader(n)) && Ordered(BecomeLeader(n)) && BecomeLeader(n).log.snapIndex == n.log.snapIndex
    ensures BecomeLeader(n).cfg == n.cfg
  {
    hide CommitUpTo, Derived, RLog.Valid, RLog.LastIndex;
    AppendDerives(n, Entry(n.term, n.log.LastIndex() + 1, Noop), TakeLead(n));
    ValidAppend(n.log, Entry(n.term, n.log.LastIndex() + 1, Noop));
    CommitDerives(TakeLead(n));
  }

  lemma ValidAppend(l: RLog, e: Entry)
    requires l.Valid() && e.index == l.LastIndex() + 1
    ensures l.Append(e).Valid()
  {
  }

  lemma StandDerives(n: Node)
    requires Derived(n) && Ordered(n) && n.log.Valid()
    ensures Derived(StartElection(n)) && Ordered(StartElection(n)) && StartElection(n).log.snapIndex == n.log.snapIndex
    ensures StartElection(n).cfg == n.cfg
  {
    hide BecomeLeader, Derived, RLog.Valid, ClusterSize;
    SameConfig(n, BecomeCandidate(n));
    LeadDerives(BecomeCandidate(n));
  }

  lemma FollowDerives(n: Node, term: nat)
    requires Derived(n) && Ordered(n)
    ensures Derived(BecomeFollower(n, term)) && Ordered(BecomeFollower(n, term)) && BecomeFollower(n, term).cfg == n.cfg
    ensures BecomeFollower(n, term).log == n.log
  {
    hide Flush, Derived;
    BecomeFollowerFields(n, term);
    SameConfig(n, BecomeFollower(n, term));
  }

  lemma ProposeDerives(n: Node, c: RaftTypes.Command, call: nat)
    requires Derived(n) && Ordered(n) && n.log.Valid()
    ensures Derived(Propose(n, Normal(c), call)) && Ordered(Propose(n, Normal(c), call))
    ensures Propose(n, Normal(c), call).log.snapIndex == n.log.snapIndex && Propose(n, Normal(c), call).cfg == n.cfg
  {
    hide CommitUpTo, Derived, RLog.Valid, RLog.LastIndex;
    var e := Entry(n.term, n.log.LastIndex() + 1, Normal(c));
    var m := n.(log := n.log.Append(e), waiters := n.waiters[e.index := call]);
    ValidAppend(n.log, e);
    AppendDerives(n, e, m);
    CommitDerives(m);
  }

  lemma ChangeOrdered(n: Node, c: Change, call: nat)
    requires Derived(n) && Ordered(n) && n.log.Valid()
    ensures ProposeConfig(n, c, call).Accepted? ==>
              var m := ProposeConfig(n, c, call).node;
              Ordered(m) && m.log.snapIndex == n.log.snapIndex && m.cfg.snapMembers == n.cfg.snapMembers
              && Changed(n.cfg.members, n.id, c).Some? && m.cfg.members == Changed(n.cfg.members, n.id, c).value
  {
    hide ApplyConfig, AdvanceCommit, Changed, Derived, RLog.Valid, RLog.LastIndex;
    if ProposeConfig(n, c, call).Accepted? {
      var members := Changed(n.cfg.members, n.id, c).value;
      var e := Entry(n.term, n.log.LastIndex() + 1, Config(members));
      var k := n.(log := n.log.Append(e), waiters := n.waiters[e.index := call]);
      ConfigFields(k, members, e.index);
      ValidAppend(n.log, e);
      CommitOrdered(ApplyConfig(k, members, e.index));
    }
  }

  lemma CommitOrdered(n: Node)
    requires n.log.Valid() && Ordered(n)
    ensures Ordered(AdvanceCommit(n)) && AdvanceCommit(n).log == n.log && AdvanceCommit(n).cfg == n.cfg
  {
    hide CommitUpTo, RLog.Valid, RLog.LastIndex;
    CommitFound(n, n.log.LastIndex());
  }

  lemma MergeSnap(n: Node, es: seq<Entry>)
    requires n.log.Valid() && Fits(n.log, es)
    ensures MergeEntries(n, es).cfg.snapMembers == n.cfg.snapMembers
    decreases |es|
  {
    hide MergeEntry, MergeOne;
    if |es| > 0 {
      var init, e := es[..|es| - 1], es[|es| - 1];
      MergeSnap(n, init);
      MergeOneSnap(MergeEntries(n, init), e);
    }
  }

  lemma MergeOneSnap(n: Node, e: Entry)
    requires n.log.Valid() && e.index <= n.log.LastIndex() + 1
    ensures MergeEntry(n, e).cfg.snapMembers == n.cfg.snapMembers
  {
    hide MergeOne, ApplyConfig, RLog.Append, RLog.TruncateFrom, RLog.TermAt, RLog.LatestConfig;
    var t := n.(log := n.log.TruncateFrom(e.index));
    RecomputeSnap(t);
    var m := if e.index <= n.cfg.configIndex then RecomputeConfig(t) else t;
    if e.payload.Config? {
      ConfigFields(m.(log := m.log.Append(e)), e.payload.members, e.index);
      ConfigFields(n.(log := n.log.Append(e)), e.payload.members, e.index);
    }
  }

  lemma RecomputeSnap(n: Node)
    ensures RecomputeConfig(n).cfg.snapMembers == n.cfg.snapMembers
  {
    hide ApplyConfig, RLog.LatestConfig;
    if n.log.LatestConfig().Some? {
      ConfigFields(n, n.log.LatestConfig().value.payload.members, n.log.LatestConfig().value.index);
    }
    ConfigFields(n, n.cfg.snapMembers, n.log.snapIndex);
    ConfigFields(n, n.cfg.bootstrap, 0);
  }

  lemma InstallSite(n: Node, s: Snapshot)
    requires n.log.Valid() && n.log.snapIndex < s.index && |s.members| > 0
    ensures Ordered(Install(n, s)) && Install(n, s).log.snapIndex == s.index && Install(n, s).cfg.snapMembers == s.members
  {
    hide ApplyConfig;
    var m := n.(log := n.log.CompactTo(s.index, s.term), commitIndex := s.index, lastApplied := s.index);
    ConfigFields(m.(cfg := m.cfg.(snapMembers := s.members)), s.members, s.index);
  }

  lemma SnapshotSite(s: Site, data: StoreSpec.Data)
    requires SiteOk(s) && s.node.log.Valid()
    ensures SiteOk(Happens(s, TakeSnapshot(data)))
  {
    hide LastConfig, Effective, Populated;
    var n := s.node;
    if n.lastApplied > n.log.snapIndex {
      EffectivePopulated(n);
      SnapshotDerives(n, n.lastApplied, n.log.TermAt(n.lastApplied));
    }
  }

  lemma PopulatedLog(n: Node)
    requires Derived(n)
    ensures |n.cfg.bootstrap| > 0 && EntriesPopulated(n.log.entries)
  {
  }

  lemma BootSite(s: Site, join: bool, applied: nat)
    requires SiteOk(s) && s.node.log.Valid()
    ensures SiteOk(Happens(s, Reboot(join, applied)))
  {
    hide LastConfig, Derived;
    var n := s.node;
    PopulatedLog(n);
    BootDerives(n.id, n.term, n.votedFor, n.log, s.file.members, n.cfg.bootstrap, join, applied);
  }

  /** Incremental membership equals recomputation: whatever happens next. */
  lemma EventDerives(s: Site, ev: Event)
    requires SiteOk(s) && s.node.log.Valid() && MayHappen(s, ev) && (ev.InstallSnapshot? ==> |ev.snapshot.members| > 0)
    ensures SiteOk(Happens(s, ev))
  {
    hide LastConfig, ApplyConfig, CommitUpTo, Propose, ProposeConfig, MergeEntries, Merge, Derived, RLog.Valid, EntriesPopulated,
         RLog.TermAt, StartElection, BecomeLeader, BecomeFollower, Install, Boot, Compact, Changed;
    var n := s.node;
    match ev
    case Receive(es) =>
      MergeDerives(n, es);
      MergeTouches(n, es);
      MergeSnap(n, es);
    case Follow(term) => FollowDerives(n, term);
    case Stand => StandDerives(n);
    case Win => LeadDerives(n);
    case Command(c, call) => ProposeDerives(n, c, call);
    case ChangeMembers(c, call) =>
      SingleServerChange(n, c, call);
      ChangeOrdered(n, c, call);
    case Advance(commit, applied) => SameConfig(n, n.(commitIndex := commit, lastApplied := applied));
    case TakeSnapshot(data) => SnapshotSite(s, data);
    case SendSnapshot =>
    case InstallSnapshot(snap) =>
      InstallDerivesIff(n, snap);
      InstallSite(n, snap);
    case Reboot(join, applied) => BootSite(s, join, applied);
  }

  // ---- Runs of a group ----

  /** The nodes and the snapshots sent. */
  datatype Group = Group(sites: map<Id, Site>, sent: set<Snapshot>)

  /** A node may be sent only what some node has on disk. */
  ghost predicate Next(g: Group, id: Id, ev: Event, h: Group) {
    && id in g.sites && g.sites[id].node.log.Valid() && MayHappen(g.sites[id], ev)
    && (ev.InstallSnapshot? ==> ev.snapshot in g.sent)
    && h == Group(g.sites[id := Happens(g.sites[id], ev)],
                  if ev.SendSnapshot? then g.sent + {g.sites[id].file} else g.sent)
  }

  datatype Run = Run(groups: seq<Group>, steps: seq<(Id, Event)>)

  ghost predicate IsRun(r: Run) {
    && |r.groups| == |r.steps| + 1
    && forall i | 0 <= i < |r.steps| :: NextAt(r, i)
  }

  ghost predicate NextAt(r: Run, i: nat)
    requires i < |r.steps| && |r.groups| == |r.steps| + 1
  {
    Next(r.groups[i], r.steps[i].0, r.steps[i].1, r.groups[i + 1])
  }

  /** Every node is in order, and every snapshot sent names its members. */
  ghost predicate GroupOk(g: Group) {
    && (forall id | id in g.sites :: SiteOk(g.sites[id]))
    && (forall s | s in g.sent :: |s.members| > 0)
  }

  /**
    In every state of every run the members in effect at each node are those of the
    last configuration in its log, else of its snapshot, else of its bootstrap set; the
    configuration index is that entry's or lies in the compacted prefix; and every
    snapshot ever sent names its members.
   */
  lemma {:induction false} DerivedForever(r: Run, i: nat)
    requires IsRun(r) && i < |r.groups| && GroupOk(r.groups[0])
    ensures GroupOk(r.groups[i])
    ensures forall id | id in r.groups[i].sites :: Derived(r.groups[i].sites[id].node)
    decreases i
  {
    hide SiteOk, Happens, MayHappen, RLog.Valid, Derived;
    if i > 0 {
      DerivedForever(r, i - 1);
      assert NextAt(r, i - 1);
      var g, id, ev := r.groups[i - 1], r.steps[i - 1].0, r.steps[i - 1].1;
      EventDerives(g.sites[id], ev);
      if ev.SendSnapshot? {
        SentNamed(g.sites[id]);
      }
    }
    forall id | id in r.groups[i].sites
      ensures Derived(r.groups[i].sites[id].node)
    {
      SiteDerived(r.groups[i].sites[id]);
    }
  }

  lemma SentNamed(s: Site)
    requires SiteOk(s) && MayHappen(s, SendSnapshot)
    ensures |s.file.members| > 0
  {
  }

  lemma SiteDerived(s: Site)
    requires SiteOk(s)
    ensures Derived(s.node)
  {
  }

  /** Nodes on their first start. */
  lemma FirstStart(id: Id, bootstrap: Members, join: bool)
    requires |bootstrap| > 0
    ensures SiteOk(Site(Boot(id, 0, None, RLog(0, 0, []), map[], bootstrap, join, 0), Snapshot(0, 0, map[], map[])))
  {
  }

  // ---- Where derivation is lost ----

  const THREE: Members := map["a" := "1", "b" := "2", "c" := "3"]
  const FOUR: Members := THREE["d" := "4"]

  const FIRST: Entry := Entry(1, 1, Noop)
  const CHANGE: Entry := Entry(1, 2, Config(FOUR))
  const NEXT_LEADS: Entry := Entry(2, 2, Noop)

  /** A follower of a cluster of three on its first start. */
  const FRESH: Site := Site(Boot("b", 0, None, RLog(0, 0, []), map[], THREE, false, 0), Snapshot(0, 0, map[], map[]))

  /** The events lead from `s` to `t`. */
  ghost predicate Leads(s: Site, evs: seq<Event>, t: Site)
    decreases |evs|
  {
    if |evs| == 0 then s == t
    else s.node.log.Valid() && MayHappen(s, evs[0]) && Leads(Happens(s, evs[0]), evs[1..], t)
  }

  lemma LeadsOn(s: Site, ev: Event, evs: seq<Event>, t: Site)
    requires s.node.log.Valid() && MayHappen(s, ev) && Leads(Happens(s, ev), evs, t)
    ensures Leads(s, [ev] + evs, t)
  {
    hide MayHappen, Happens, RLog.Valid;
    assert ([ev] + evs)[1..] == evs;
  }

  /** After its leader's empty entry, which is committed, the follower takes in a change that is not. */
  const CHANGED: Site :=
    Site(FRESH.node.(log := RLog(0, 0, [FIRST, CHANGE]), commitIndex := 1, lastApplied := 1,
                     cfg := Membership(FOUR, THREE, map[], 2, false)), FRESH.file)

  /** The next leader does not have the change, and cuts it off. */
  const CUT: Site :=
    Site(CHANGED.node.(log := RLog(0, 0, [FIRST, NEXT_LEADS]), cfg := Membership(THREE, THREE, map[], 0, false)), FRESH.file)

  lemma FollowerMerges()
    ensures FRESH.node.cfg.members == THREE
    ensures MergeEntries(FRESH.node, [FIRST]) == FRESH.node.(log := RLog(0, 0, [FIRST]))
    ensures CHANGED.node.log.Valid()
  {
    hide FRESH, CHANGED, MergeEntries, MergeEntry;
    FreshNode();
    ChangedLog();
    MergesPlain(FRESH.node, FIRST);
    assert [] + [FIRST] == [FIRST];
  }

  lemma FreshNode()
    ensures FRESH.node.log == RLog(0, 0, []) && FRESH.node.cfg.members == THREE
  {
  }

  lemma ChangedLog()
    ensures CHANGED.node.log.Valid()
  {
  }

  /** One more entry that is no configuration. */
  lemma MergesPlain(n: Node, e: Entry)
    requires n.log.Valid() && e.index == n.log.LastIndex() + 1 && e.index > n.log.snapIndex && !e.payload.Config?
    ensures Fits(n.log, [e]) && MergeEntries(n, [e]) == n.(log := n.log.Append(e))
  {
    hide RLog.LastIndex, RLog.TermAt;
    assert [e][..0] == [];
    assert MergeEntries(n, []) == n;
  }

  lemma ChangeMerges()
    ensures var n := FRESH.node.(log := RLog(0, 0, [FIRST]), commitIndex := 1, lastApplied := 1);
            n.log.Valid() && Fits(n.log, [CHANGE]) && MergeEntries(n, [CHANGE]) == CHANGED.node
  {
    assert [CHANGE][..0] == [];
    assert [FIRST] + [CHANGE] == [FIRST, CHANGE];
  }

  lemma CutMerges()
    ensures CHANGED.node.log.Valid() && Fits(CHANGED.node.log, [NEXT_LEADS]) && MergeEntries(CHANGED.node, [NEXT_LEADS]) == CUT.node
  {
    assert [NEXT_LEADS][..0] == [];
    var n := CHANGED.node;
    assert n.log.TruncateFrom(2).entries == [FIRST];
    assert [FIRST][..0] == [];
    assert n.log.TruncateFrom(2).LatestConfig() == None;
    assert [FIRST] + [NEXT_LEADS] == [FIRST, NEXT_LEADS];
  }

  lemma ReachesChanged()
    ensures Leads(FRESH, [Receive([FIRST])] + ([Advance(1, 1)] + ([Receive([CHANGE])] + [])), CHANGED)
  {
    hide *;
    FirstReceived();
    ChangeReceived();
    LeadsNowhere(CHANGED);
    LeadsOn(COMMITTED, Receive([CHANGE]), [], CHANGED);
    LeadsOn(RECEIVED, Advance(1, 1), [Receive([CHANGE])] + [], CHANGED);
    LeadsOn(FRESH, Receive([FIRST]), [Advance(1, 1)] + ([Receive([CHANGE])] + []), CHANGED);
  }

  /** On the way: the first entry is there, and then committed. */
  const RECEIVED: Site := Site(FRESH.node.(log := RLog(0, 0, [FIRST])), FRESH.file)
  const COMMITTED: Site := Site(RECEIVED.node.(commitIndex := 1, lastApplied := 1), FRESH.file)

  lemma FirstReceived()
    ensures FRESH.node.log.Valid() && MayHappen(FRESH, Receive([FIRST])) && Happens(FRESH, Receive([FIRST])) == RECEIVED
    ensures RECEIVED.node.log.Valid() && MayHappen(RECEIVED, Advance(1, 1)) && Happens(RECEIVED, Advance(1, 1)) == COMMITTED
  {
    hide MergeEntries;
    FollowerMerges();
  }

  lemma ChangeReceived()
    ensures COMMITTED.node.log.Valid() && MayHappen(COMMITTED, Receive([CHANGE])) && Happens(COMMITTED, Receive([CHANGE])) == CHANGED
  {
    hide MergeEntries;
    ChangeMerges();
    assert "d" in FOUR;
  }

  lemma LeadsNowhere(s: Site)
    ensures Leads(s, [], s)
  {
  }

  /**
    A snapshot in two steps. The follower chooses to take one at index 1 and captures
    its members; while the state is read the next leader cuts the change off; then the
    snapshot is saved. The members in effect are no longer those that log, snapshot and
    flags determine.
   */
  lemma CapturedMembersLost()
    ensures Leads(FRESH, [Receive([FIRST])] + ([Advance(1, 1)] + ([Receive([CHANGE])] + [])), CHANGED)
    ensures CHANGED.node.log.Valid() && SnapshotDue(CHANGED.node, 1) && CHANGED.node.lastApplied == 1
    ensures Leads(CHANGED, [Receive([NEXT_LEADS])] + [], CUT) && CUT.node.log.Valid() && Derived(CUT.node)
    ensures !Derived(Compact(CUT.node, 1, CHANGED.node.log.TermAt(1), CHANGED.node.cfg.members))
  {
    hide Leads, MergeEntries;
    ReachesChanged();
    CutMerges();
    LeadsNowhere(CUT);
    LeadsOn(CHANGED, Receive([NEXT_LEADS]), [], CUT);
    CutDerived();
    CompactDerivesIff(CUT.node, 1, 1, FOUR);
    assert "d" in FOUR && "d" !in THREE;
  }

  lemma CutDerived()
    ensures Derived(CUT.node) && CUT.node.log.LatestConfig() == None && CHANGED.node.log.TermAt(1) == 1
  {
    assert [FIRST, NEXT_LEADS][..1] == [FIRST] && [FIRST][..0] == [];
    assert "a" in THREE;
  }

  /** A snapshot file in the older format, which does not say who the members are. */
  const OLDER: Snapshot := Snapshot(2, 2, map[], map[])

  /**
    Sent a snapshot from such a file, a follower keeps in effect a change that the
    snapshot has taken out of its log. No snapshot this program writes is of this
    kind (DerivedForever).
   */
  lemma OlderSnapshotLosesMembers()
    ensures Leads(FRESH, [Receive([FIRST])] + ([Advance(1, 1)] + ([Receive([CHANGE])] + [])), CHANGED)
    ensures CHANGED.node.log.Valid() && MayHappen(CHANGED, InstallSnapshot(OLDER)) && Derived(CHANGED.node)
    ensures !Derived(Happens(CHANGED, InstallSnapshot(OLDER)).node)
  {
    hide Leads;
    ReachesChanged();
    ChangedDerived();
    InstallDerivesIff(CHANGED.node, OLDER);
    assert "d" in FOUR && "d" !in THREE;
  }

  lemma ChangedDerived()
    ensures Derived(CHANGED.node) && CHANGED.node.log.LatestConfig() == Some(CHANGE)
  {
    assert "a" in THREE && "d" in FOUR;
  }
}

/**
  The configuration in effect is always the one that the log, the snapshot and the
  start-up flags determine, and changes one member at a time (section 4.1 of
  Ongaro's dissertation).
 */
module MembershipRules {
  import opened Wrappers
  import opened RaftTypes
  import opened CompactLog
  import opened Protocol
  import opened Snapshots

  // ---- The reference ----

  /** What is in effect when the log holds no configuration. */
  function Fallback(cfg: Membership): Members {
    if |cfg.snapMembers| > 0 then cfg.snapMembers else cfg.bootstrap
  }

  /** The last configuration in the log, else the snapshot's, else the bootstrap one. */
  function Effective(log: RLog, cfg: Membership): Members {
    match LastConfig(log.entries)
    case Some(e) => e.payload.members
    case None => Fallback(cfg)
  }

  /** `index` is that of the configuration in the log, or lies in the compacted prefix. */
  predicate Placed(log: RLog, index: nat) {
    match LastConfig(log.entries)
    case Some(e) => index == e.index
    case None => index <= log.snapIndex
  }

  /** No configuration is empty: a leader's contains the leader, the bootstrap one the node itself. */
  predicate Populated(log: RLog, cfg: Membership) {
    |cfg.bootstrap| > 0 && forall e | e in log.entries && e.payload.Config? :: |e.payload.members| > 0
  }

  predicate Derived(n: Node) {
    && n.log.Valid()
    && n.cfg.members == Effective(n.log, n.cfg)
    && Placed(n.log, n.cfg.configIndex)
    && Populated(n.log, n.cfg)
  }

  // ---- The last configuration of a changed log ----

  lemma {:induction false} LastConfigLast(es: seq<Entry>)
    ensures match LastConfig(es)
            case Some(e) => exists k :: 0 <= k < |es| && es[k] == e && forall j | k < j < |es| :: !es[j].payload.Config?
            case None => forall j | 0 <= j < |es| :: !es[j].payload.Config?
  {
    if |es| > 0 {
      var init := es[..|es| - 1];
      LastConfigLast(init);
      if es[|es| - 1].payload.Config? {
        assert es[|es| - 1] == LastConfig(es).value;
      } else if LastConfig(init).Some? {
        var k :| 0 <= k < |init| && init[k] == LastConfig(init).value && forall j | k < j < |init| :: !init[j].payload.Config?;
        assert es[k] == init[k] && forall j | k < j < |es| :: !es[j].payload.Config?;
      }
    }
  }

  /** Where there is a configuration with none after it, it is the last. */
  lemma {:induction false} LastConfigIs(es: seq<Entry>, k: nat)
    requires k < |es| && es[k].payload.Config? && forall j | k < j < |es| :: !es[j].payload.Config?
    ensures LastConfig(es) == Some(es[k])
  {
    if k < |es| - 1 {
      assert !es[|es| - 1].payload.Config?;
      LastConfigIs(es[..|es| - 1], k);
    }
  }

  lemma NoConfig(es: seq<Entry>)
    requires forall j | 0 <= j < |es| :: !es[j].payload.Config?
    ensures LastConfig(es) == None
  {
  }

  lemma LastConfigAppend(es: seq<Entry>, e: Entry)
    ensures LastConfig(es + [e]) == if e.payload.Config? then Some(e) else LastConfig(es)
  {
  }

  /** A part of the entries that contains everything from the last configuration on keeps it; a part after it has none. */
  lemma LastConfigPart(l: RLog, low: nat, high: nat)
    requires l.Valid() && low <= high <= |l.entries|
    ensures match LastConfig(l.entries)
            case None => LastConfig(l.entries[low..high]) == None
            case Some(e) =>
              && l.snapIndex < e.index <= l.snapIndex + |l.entries|
              && (l.snapIndex + low < e.index <= l.snapIndex + high ==> LastConfig(l.entries[low..high]) == Some(e))
              && (e.index <= l.snapIndex + low ==> LastConfig(l.entries[low..high]) == None)
  {
    hide LastConfig, NoneFrom;
    var es := l.entries;
    if LastConfig(es).None? {
      NoneAtAll(es);
      PartNone(es, 0, low, high);
    } else {
      var k := LastConfigAt(es);
      assert es[k].index == l.snapIndex + 1 + k;
      if low <= k < high {
        PartLast(es, k, low, high);
      } else if k < low {
        PartNone(es, k + 1, low, high);
      }
    }
  }

  /** No configuration from position `k` on. */
  ghost predicate NoneFrom(es: seq<Entry>, k: nat) {
    forall j | k <= j < |es| :: !es[j].payload.Config?
  }

  lemma NoneAtAll(es: seq<Entry>)
    requires LastConfig(es) == None
    ensures NoneFrom(es, 0)
  {
    hide LastConfig;
    LastConfigLast(es);
  }

  lemma LastConfigAt(es: seq<Entry>) returns (k: nat)
    requires LastConfig(es).Some?
    ensures k < |es| && LastConfig(es) == Some(es[k]) && es[k].payload.Config? && NoneFrom(es, k + 1)
  {
    hide LastConfig;
    LastConfigLast(es);
    k :| 0 <= k < |es| && es[k] == LastConfig(es).value && forall j | k < j < |es| :: !es[j].payload.Config?;
  }

  lemma PartNone(es: seq<Entry>, k: nat, low: nat, high: nat)
    requires NoneFrom(es, k) && k <= low <= high <= |es|
    ensures LastConfig(es[low..high]) == None
  {
    hide LastConfig;
    NoConfig(es[low..high]);
  }

  lemma PartLast(es: seq<Entry>, k: nat, low: nat, high: nat)
    requires low <= k < high <= |es| && es[k].payload.Config? && NoneFrom(es, k + 1)
    ensures LastConfig(es[low..high]) == Some(es[k])
  {
    hide LastConfig;
    assert es[low..high][k - low] == es[k];
    LastConfigIs(es[low..high], k - low);
  }

  // ---- Each operation keeps the configuration derived ----

  lemma ConfigFields(n: Node, members: Members, index: nat)
    ensures var m := ApplyConfig(n, members, index);
            && m.log == n.log && m.commitIndex == n.commitIndex && m.lastApplied == n.lastApplied
            && m.cfg.members == members && m.cfg.configIndex == index
            && m.cfg.bootstrap == n.cfg.bootstrap && m.cfg.snapMembers == n.cfg.snapMembers
  {
  }

  /** Recomputing gives the reference outright, whatever was in effect. */
  lemma RecomputeDerives(n: Node)
    requires n.log.Valid() && Populated(n.log, n.cfg)
    ensures Derived(RecomputeConfig(n))
  {
    hide ApplyConfig, RLog.Valid;
    match n.log.LatestConfig()
    case Some(e) => ConfigFields(n, e.payload.members, e.index);
    case None =>
      ConfigFields(n, n.cfg.snapMembers, n.log.snapIndex);
      ConfigFields(n, n.cfg.bootstrap, 0);
  }

  /** An entry a follower takes in: a configuration takes effect at once. */
  lemma AcceptDerives(n: Node, e: Entry)
    requires Derived(n) && e.index == n.log.LastIndex() + 1 && (e.payload.Config? ==> |e.payload.members| > 0)
    ensures Derived(AcceptEntry(n, e))
  {
    hide ApplyConfig, LastConfig;
    LastConfigAppend(n.log.entries, e);
    var m := n.(log := n.log.Append(e));
    assert m.log.Valid();
    if e.payload.Config? {
      ConfigFields(m, e.payload.members, e.index);
    }
  }

  /** A cut: if it takes the configuration in effect away, the reference decides anew. */
  lemma TruncateDerives(n: Node, i: nat)
    requires Derived(n) && n.log.snapIndex < i <= n.log.LastIndex()
    ensures var m := n.(log := n.log.TruncateFrom(i));
            Derived(if i <= n.cfg.configIndex then RecomputeConfig(m) else m)
  {
    hide ApplyConfig, LastConfig, RecomputeConfig;
    var m := n.(log := n.log.TruncateFrom(i));
    LastConfigPart(n.log, 0, i - n.log.snapIndex - 1);
    assert n.log.entries[0..i - n.log.snapIndex - 1] == m.log.entries;
    assert m.log.Valid();
    if i <= n.cfg.configIndex {
      RecomputeDerives(m);
    }
  }

  predicate EntriesPopulated(es: seq<Entry>) {
    forall e | e in es && e.payload.Config? :: |e.payload.members| > 0
  }

  lemma MergeOneDerives(n: Node, e: Entry)
    requires Derived(n) && e.index <= n.log.LastIndex() + 1 && EntriesPopulated([e])
    ensures Derived(MergeEntry(n, e))
  {
    hide ApplyConfig, LastConfig, RecomputeConfig, AcceptEntry, Derived, RLog.TruncateFrom;
    assert e in [e];
    DerivedValid(n);
    if e.index <= n.log.snapIndex || (e.index <= n.log.LastIndex() && n.log.TermAt(e.index) == e.term) {
    } else if e.index <= n.log.LastIndex() {
      TruncateDerives(n, e.index);
      TruncatedEnd(n.log, e.index);
      var m := n.(log := n.log.TruncateFrom(e.index));
      AcceptDerives(if e.index <= n.cfg.configIndex then RecomputeConfig(m) else m, e);
    } else {
      AcceptDerives(n, e);
    }
  }

  lemma DerivedValid(n: Node)
    requires Derived(n)
    ensures n.log.Valid()
  {
  }

  lemma TruncatedEnd(l: RLog, i: nat)
    requires l.Valid() && l.snapIndex < i <= l.LastIndex()
    ensures l.TruncateFrom(i).LastIndex() == i - 1
  {
  }

  /** The append handler's loop, with its cuts and appended configurations. */
  lemma {:induction false} MergeDerives(n: Node, es: seq<Entry>)
    requires Derived(n) && n.log.Valid() && Fits(n.log, es) && EntriesPopulated(es)
    ensures Derived(MergeEntries(n, es))
  {
    hide MergeEntry, Derived, MergeOne;
    if |es| > 0 {
      var init, e := es[..|es| - 1], es[|es| - 1];
      MergeDerives(n, init);
      assert EntriesPopulated([e]);
      MergeOneDerives(MergeEntries(n, init), e);
    }
  }

  /**
    A snapshot saved at `index` with the members `captured` earlier: the
    configuration stays derived exactly if a configuration past the boundary is still
    in the log, or what was captured is what is in effect.
   */
  lemma CompactDerivesIff(n: Node, index: nat, term: nat, captured: Members)
    requires Derived(n) && n.log.snapIndex < index && |captured| > 0
    ensures Derived(Compact(n, index, term, captured)) <==>
              (n.log.LatestConfig().Some? && n.cfg.configIndex > index) || captured == n.cfg.members
  {
    hide LastConfig;
    CompactedConfig(n.log, index, term);
    var m := Compact(n, index, term, captured);
    forall e | e in m.log.entries
      ensures e in n.log.entries
    {
      assert index < n.log.LastIndex() ==> m.log.entries == n.log.entries[index - n.log.snapIndex..];
    }
  }

  /** The last configuration after compaction: the same if it lies past the boundary, else none. */
  lemma CompactedConfig(l: RLog, index: nat, term: nat)
    requires l.Valid() && l.snapIndex < index
    ensures l.CompactTo(index, term).Valid()
    ensures LastConfig(l.CompactTo(index, term).entries) ==
            match LastConfig(l.entries)
            case None => None
            case Some(e) => if e.index > index then Some(e) else None
  {
    hide LastConfig;
    LastConfigPart(l, 0, |l.entries|);
    assert l.entries[0..|l.entries|] == l.entries;
    NoConfig([]);
    if index < l.LastIndex() {
      LastConfigPart(l, index - l.snapIndex, |l.entries|);
      assert l.CompactTo(index, term).entries == l.entries[index - l.snapIndex..|l.entries|];
    }
  }

  /** Taken in one step, with the members in effect, a snapshot keeps the configuration derived. */
  lemma SnapshotDerives(n: Node, index: nat, term: nat)
    requires Derived(n)
    ensures Derived(Compact(n, index, term, n.cfg.members))
  {
    hide LastConfig;
    if index > n.log.snapIndex {
      EffectivePopulated(n);
      CompactDerivesIff(n, index, term, n.cfg.members);
    }
  }

  lemma EffectivePopulated(n: Node)
    requires Derived(n)
    ensures |n.cfg.members| > 0
  {
  }

  /**
    Taking in a snapshot keeps the configuration derived exactly if the snapshot
    names its members, or the log has no configuration that the snapshot covers, or
    the fallback happens to be that configuration.
   */
  lemma InstallDerivesIff(n: Node, s: Snapshot)
    requires Derived(n) && n.log.snapIndex < s.index
    ensures Derived(Install(n, s)) <==>
              || |s.members| > 0
              || n.log.LatestConfig().None?
              || n.cfg.configIndex > s.index
              || n.cfg.members == Fallback(n.cfg)
  {
    hide LastConfig, ApplyConfig, RLog.Valid;
    CompactedConfig(n.log, s.index, s.term);
    var m := n.(log := n.log.CompactTo(s.index, s.term), commitIndex := s.index, lastApplied := s.index);
    CompactKeepsEntries(n.log, s.index, s.term);
    var k := m.(cfg := m.cfg.(snapMembers := s.members));
    ConfigFields(k, s.members, s.index);
  }

  lemma CompactKeepsEntries(l: RLog, index: nat, term: nat)
    requires l.Valid()
    ensures forall e | e in l.CompactTo(index, term).entries :: e in l.entries
  {
  }

  /** A start derives the configuration from disk. */
  lemma BootDerives(id: Id, term: nat, votedFor: Option<Id>, log: RLog, snapMembers: Members, bootstrap: Members,
                    join: bool, applied: nat)
    requires log.Valid() && |bootstrap| > 0 && EntriesPopulated(log.entries)
    ensures Derived(Boot(id, term, votedFor, log, snapMembers, bootstrap, join, applied))
  {
  }

  // ---- Changing the configuration ----

  datatype Change = Add(id: Id, address: string) | Remove(id: Id)

  datatype ConfigError = LeaderElsewhere | ChangeInProgress | RemovesLeader | BadMember

  datatype ConfigResult = Accepted(node: Node) | Refused(error: ConfigError)

  /** The changed members; a change that is none is refused. */
  function Changed(members: Members, self: Id, c: Change): Option<Members> {
    match c
    case Add(id, address) =>
      if id == "" || address == "" || id in members then None else Some(members[id := address])
    case Remove(id) =>
      if id == self || id !in members then None else Some(members - {id})
  }

  /** The leader appends the changed configuration, which takes effect at once; one change at a time. */
  function ProposeConfig(n: Node, c: Change, call: nat): ConfigResult
    requires n.log.Valid()
  {
    if c.Add? && (c.id == "" || c.address == "") then Refused(BadMember)
    else if n.role != Leader then Refused(LeaderElsewhere)
    else if n.cfg.configIndex > n.commitIndex then Refused(ChangeInProgress)
    else if c == Remove(n.id) then Refused(RemovesLeader)
    else
      match Changed(n.cfg.members, n.id, c)
      case None => Refused(BadMember)
      case Some(members) =>
        var e := Entry(n.term, n.log.LastIndex() + 1, Config(members));
        var m := n.(log := n.log.Append(e), waiters := n.waiters[e.index := call]);
        Accepted(AdvanceCommit(ApplyConfig(m, members, e.index)))
  }

  /** A change without an id or an address is refused before anything is looked at. */
  predicate Nameless(c: Change) {
    c.Add? && (c.id == "" || c.address == "")
  }

  /**
    When a change is refused, and why: whoever asks anyone but the leader, while an
    earlier change is not committed, to remove the leader, to add who is there, or to
    remove who is not.
   */
  lemma RefusedIff(n: Node, c: Change, call: nat)
    requires n.log.Valid()
    ensures var r, ready := ProposeConfig(n, c, call), n.role == Leader && n.cfg.configIndex <= n.commitIndex;
            && (r == Refused(LeaderElsewhere) <==> !Nameless(c) && n.role != Leader)
            && (r == Refused(ChangeInProgress) <==> !Nameless(c) && n.role == Leader && n.cfg.configIndex > n.commitIndex)
            && (r == Refused(RemovesLeader) <==> ready && c.Remove? && c.id == n.id)
            && (r == Refused(BadMember) <==>
                  Nameless(c) || (ready && if c.Add? then c.id in n.cfg.members else c.id != n.id && c.id !in n.cfg.members))
            && (r.Accepted? <==>
                  !Nameless(c) && ready && if c.Add? then c.id !in n.cfg.members else c.id != n.id && c.id in n.cfg.members)
  {
    hide ApplyConfig, AdvanceCommit, RLog.Valid, RLog.LastIndex;
  }

  /** The members, with addresses, that a change asks for. */
  ghost predicate AsAsked(before: Members, c: Change, after: Members) {
    match c
    case Add(id, address) =>
      && after.Keys == before.Keys + {id} && after[id] == address
      && forall m | m in before :: after[m] == before[m]
    case Remove(id) =>
      after.Keys == before.Keys - {id} && forall m | m in after :: after[m] == before[m]
  }

  /**
    An accepted change is in effect and at the end of the log: the members are those
    before, at their addresses, with just the one added at the address given, or just
    the one removed. Its call waits at the entry, and the leader tracks exactly its
    peers: a new one from the end of the log on, the others as before.
   */
  lemma AcceptedIs(n: Node, c: Change, call: nat)
    requires n.log.Valid() && ProposeConfig(n, c, call).Accepted?
    ensures var m, index := ProposeConfig(n, c, call).node, n.log.LastIndex() + 1;
            && AsAsked(n.cfg.members, c, m.cfg.members)
            && m.log.entries == n.log.entries + [Entry(n.term, index, Config(m.cfg.members))]
            && m.log.snapIndex == n.log.snapIndex && m.log.snapTerm == n.log.snapTerm
            && m.cfg.configIndex == index && m.waiters == n.waiters[index := call] && m.sent == n.sent
            && m.role == Leader && m.term == n.term && m.votedFor == n.votedFor && m.lastApplied == n.lastApplied
            && m.nextIndex.Keys == Peers(m)
            && (forall p | p in Peers(m) :: m.nextIndex[p] == if p in n.nextIndex then n.nextIndex[p] else index + 1)
            && (forall p | p in Peers(m) && p !in n.nextIndex :: p in m.matchIndex && m.matchIndex[p] == 0)
            && (forall p | p in Peers(m) && p in n.nextIndex :: (p in m.matchIndex <==> p in n.matchIndex)
                                                               && (p in n.matchIndex ==> m.matchIndex[p] == n.matchIndex[p]))
  {
    hide ApplyConfig, CommitUpTo, Majority, LastConfig, RLog.Valid;
    var members := Changed(n.cfg.members, n.id, c).value;
    var e := Entry(n.term, n.log.LastIndex() + 1, Config(members));
    var k := n.(log := n.log.Append(e), waiters := n.waiters[e.index := call]);
    NewPeers(k, members, e.index);
    LastOf(n.log, e);
  }

  /** The index maps of a leader with a new configuration. */
  lemma NewPeers(n: Node, members: Members, index: nat)
    requires n.role == Leader
    ensures var m := ApplyConfig(n, members, index);
            && m == n.(cfg := m.cfg, nextIndex := m.nextIndex, matchIndex := m.matchIndex)
            && m.cfg.members == members && m.cfg.configIndex == index
            && m.nextIndex.Keys == Peers(m)
            && (forall p | p in Peers(m) :: m.nextIndex[p] == if p in n.nextIndex then n.nextIndex[p] else n.log.LastIndex() + 1)
            && (forall p | p in Peers(m) && p !in n.nextIndex :: p in m.matchIndex && m.matchIndex[p] == 0)
            && (forall p | p in Peers(m) && p in n.nextIndex :: (p in m.matchIndex <==> p in n.matchIndex)
                                                               && (p in n.matchIndex ==> m.matchIndex[p] == n.matchIndex[p]))
  {
    hide RLog.LastIndex;
  }

  lemma LastOf(l: RLog, e: Entry)
    ensures l.Append(e).LastIndex() == e.index
  {
  }

  /** `b` is `a` with one member more or one less. */
  predicate OneApart(a: Members, b: Members) {
    || (exists id | id in b :: id !in a && b == a[id := b[id]])
    || (exists id | id in a :: b == a - {id})
  }

  /**
    A configuration that a leader appends differs by one member from the one in
    effect; every earlier configuration in its log is committed; and it is in effect
    from now on.
   */
  lemma SingleServerChange(n: Node, c: Change, call: nat)
    requires Derived(n) && n.log.Valid()
    ensures match ProposeConfig(n, c, call)
            case Refused(_) => true
            case Accepted(m) =>
              && m.log.entries == n.log.entries + [Entry(n.term, n.log.LastIndex() + 1, Config(m.cfg.members))]
              && OneApart(n.cfg.members, m.cfg.members)
              && (forall e | e in n.log.entries && e.payload.Config? :: e.index <= n.commitIndex)
              && (n.id in n.cfg.members ==> n.id in m.cfg.members)
              && (|m.cfg.members| > 0 ==> Derived(m))
  {
    hide LastConfig, ApplyConfig, CommitUpTo, Derived, RLog.Valid, OneApart;
    match ProposeConfig(n, c, call)
    case Refused(_) =>
    case Accepted(m) =>
      var members := Changed(n.cfg.members, n.id, c).value;
      var e := Entry(n.term, n.log.LastIndex() + 1, Config(members));
      var k := n.(log := n.log.Append(e), waiters := n.waiters[e.index := call]);
      ConfigFields(k, members, e.index);
      ConfigsCommitted(n);
      ChangedMembers(n.cfg.members, n.id, c);
      if |members| > 0 {
        ChangeDerives(n, members, e, k);
      }
  }

  lemma ChangedMembers(members: Members, self: Id, c: Change)
    requires Changed(members, self, c).Some?
    ensures OneApart(members, Changed(members, self, c).value)
    ensures self in members ==> self in Changed(members, self, c).value
  {
  }

  lemma ChangeDerives(n: Node, members: Members, e: Entry, k: Node)
    requires Derived(n) && n.log.Valid() && |members| > 0 && e == Entry(n.term, n.log.LastIndex() + 1, Config(members))
    requires k.log == n.log.Append(e) && k.cfg == n.cfg
    ensures Derived(AdvanceCommit(ApplyConfig(k, members, e.index)))
  {
    hide LastConfig, ApplyConfig, CommitUpTo;
    ConfigFields(k, members, e.index);
    LastConfigAppend(n.log.entries, e);
  }

  /** No configuration lies past the one in effect. */
  lemma ConfigsCommitted(n: Node)
    requires Derived(n)
    ensures forall e | e in n.log.entries && e.payload.Config? :: e.index <= n.cfg.configIndex
  {
    hide LastConfig;
    LastConfigLast(n.log.entries);
  }

  lemma OneApartKeys(a: Members, b: Members)
    requires OneApart(a, b)
    ensures exists id :: (id !in a.Keys && b.Keys == a.Keys + {id}) || (id in a.Keys && b.Keys == a.Keys - {id})
  {
  }

  /** So many members of both must be in a majority of `a`, at the least. */
  function Borrowed(a: set<Id>, b: set<Id>): nat {
    var alone := |a - b|;
    if alone >= |a| / 2 + 1 then 0 else |a| / 2 + 1 - alone
  }

  lemma BorrowedShared(q: set<Id>, a: set<Id>, b: set<Id>)
    requires IsQuorum(q, a)
    ensures |q * b| >= Borrowed(a, b)
  {
    assert q == q * b + (q - b);
    SubsetSize(q - b, a - b);
  }

  /** Any number of elements can be picked. */
  lemma {:induction false} Pick(s: set<Id>, n: nat) returns (t: set<Id>)
    requires n <= |s|
    ensures t <= s && |t| == n
  {
    if n == 0 {
      t := {};
    } else {
      var x :| x in s;
      t := Pick(s - {x}, n - 1);
      t := t + {x};
    }
  }

  /** The smallest majorities borrow as little as they can, and any members will do. */
  lemma SmallMajority(a: set<Id>, b: set<Id>, shared: set<Id>) returns (q: set<Id>)
    requires |a| > 0 && shared <= a * b && |shared| == Borrowed(a, b)
    ensures IsQuorum(q, a) && q * b == shared
  {
    var alone := Pick(a - b, if |a - b| >= |a| / 2 + 1 then |a| / 2 + 1 else |a - b|);
    q := alone + shared;
    assert |q| == |alone| + |shared| && q * b == shared;
  }

  /**
    For any two sets of members: every majority of one meets every majority of the other
    if and only if the two cannot borrow different members of both.
   */
  lemma MajoritiesMeetIff(a: set<Id>, b: set<Id>)
    requires |a| > 0 && |b| > 0
    ensures (forall p, q | IsQuorum(p, a) && IsQuorum(q, b) :: p * q != {}) <==> Borrowed(a, b) + Borrowed(b, a) > |a * b|
  {
    if Borrowed(a, b) + Borrowed(b, a) > |a * b| {
      forall p, q | IsQuorum(p, a) && IsQuorum(q, b)
        ensures p * q != {}
      {
        BorrowedShared(p, a, b);
        BorrowedShared(q, b, a);
        SubsetSize(p * b + q * a, a * b);
        assert |p * b + q * a| == |p * b| + |q * a| - |(p * b) * (q * a)|;
        assert (p * b) * (q * a) <= p * q;
      }
    } else {
      assert b * a == a * b;
      var x := Pick(a * b, Borrowed(a, b));
      var y := Pick(a * b - x, Borrowed(b, a));
      var p := SmallMajority(a, b, x);
      var q := SmallMajority(b, a, y);
      assert p * q <= (p * b) * (q * a);
      assert p * q == {};
    }
  }

  /** Every majority of one configuration meets every majority of the other. */
  lemma MajoritiesMeet(a: Members, b: Members, q: set<Id>, p: set<Id>) returns (common: Id)
    requires OneApart(a, b) && IsQuorum(q, a.Keys) && IsQuorum(p, b.Keys)
    ensures common in q && common in p
  {
    OneApartKeys(a, b);
    var larger := if |a.Keys| < |b.Keys| then b.Keys else a.Keys;
    var id :| (id !in a.Keys && b.Keys == a.Keys + {id}) || (id in a.Keys && b.Keys == a.Keys - {id});
    SubsetSize(q + p, larger);
    assert |q + p| == |q| + |p| - |q * p|;
    assert q * p != {};
    common :| common in q * p;
  }
}

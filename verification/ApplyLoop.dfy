/**
  Applying committed entries exactly once, across crashes and snapshots.

  The nodes of a cluster agree on a committed sequence, the ledger. Each node
  applies it to its store, now and then saves a snapshot and compacts, and may be
  sent the snapshot of another. The apply loop and the snapshot code give the lock
  up in between, and a crash may fall between any two durable writes; here every
  stretch under the lock and every durable write is a step of its own. Here are one
  node's steps and what they keep; module ApplyRuns has the runs of a cluster.
 */
module ApplyLoop {
  import opened Wrappers
  import opened RaftTypes
  import opened CompactLog
  import opened StoreSpec
  import opened Counters
  import opened Decimal

  /** A saved snapshot; index 0 stands for none. */
  datatype SnapFile = SnapFile(index: nat, term: nat, data: Data)

  /**
    The entry the apply loop works on and the call that waits for it; once the store
    has been called also the result, and how far the store had come by then.
   */
  datatype Taken = Taken(index: nat, entry: Entry, waiter: Option<nat>, result: Option<Result>, seen: nat)

  /** A snapshot of the node's own under way: the index it is for, then the state that was read. */
  datatype Shot = NoShot | Chosen(index: nat, term: nat) | Read(index: nat, term: nat, data: Data)

  /** Who holds the lock over more than one durable write, and how far it has come. */
  datatype Busy =
    | Free
    | Saved(index: nat, term: nat)          // own snapshot on disk, log not yet compacted
    | Compacted(index: nat)                 // log compacted, write-ahead log not yet cut
    | Received(snap: SnapFile)              // another node's snapshot on disk
    | Restored(snap: SnapFile)              // and in the store
    | Shortened(snap: SnapFile)             // and the log compacted

  datatype Node = Node(
    store: Store, log: RLog, commit: nat, lastApplied: nat, taken: Option<Taken>, shot: Shot, busy: Busy,
    waiters: map<nat, nat>,                 // log index to the call that waits for it
    snap: SnapFile, wal: seq<WalRecord>)    // the last two, and the log, are on disk

  datatype Action =
    | Learn(log: RLog, commit: nat)         // entries from the leader, and its commit index
    | Propose(entry: Entry, call: nat)      // a call appends an entry and waits for it
    | StepDown                              // all waiting calls are told to go elsewhere
    | Take
    | Apply
    | Finish
    | Choose(threshold: nat)
    | ReadState
    | Save
    | CompactLog
    | CutWal
    | Send                                  // the saved snapshot, to any node
    | Receive(snap: SnapFile)
    | Restore
    | Shorten
    | Reposition
    | Crash

  function Max(a: nat, b: nat): nat {
    if a < b then b else a
  }

  // ---- The ledger ----

  function TermOf(ledger: seq<Entry>, index: nat): nat {
    if 0 < index <= |ledger| then ledger[index - 1].term else 0
  }

  /** The log has the ledger's entries from its boundary up to `commit`. */
  ghost predicate Holds(ledger: seq<Entry>, l: RLog, commit: nat) {
    && l.Valid() && commit <= |ledger| && l.snapIndex <= |ledger| && l.snapTerm == TermOf(ledger, l.snapIndex)
    && forall i | l.snapIndex < i <= commit :: l.At(i) == Some(ledger[i - 1])
  }

  ghost predicate Exact(ledger: seq<Entry>, s: SnapFile) {
    s.index <= |ledger| && s.term == TermOf(ledger, s.index) && s.data == Fold(ledger[..s.index])
  }

  /** No store command lies past `low` up to `high`. */
  ghost predicate Calm(ledger: seq<Entry>, low: nat, high: nat) {
    high <= |ledger| && forall k | low <= k < high :: !ledger[k].payload.Normal?
  }

  // ---- Steps of one node ----

  ghost predicate Enabled(ledger: seq<Entry>, n: Node, a: Action) {
    match a
    case Learn(l, commit) =>
      n.busy.Free? && Holds(ledger, l, commit) && n.commit <= commit <= l.LastIndex()
      && l.snapIndex == n.log.snapIndex && l.snapTerm == n.log.snapTerm
      && forall i | i in n.waiters :: n.log.Valid() && l.At(i) == n.log.At(i)
    case Propose(e, _) => n.busy.Free? && e.index == n.log.LastIndex() + 1
    case StepDown => n.busy.Free?
    case Take => n.busy.Free? && n.taken == None && n.shot.NoShot? && n.lastApplied < n.commit
    case Apply => n.taken.Some? && n.taken.value.result == None
    case Finish => n.busy.Free? && n.taken.Some? && n.taken.value.result.Some?
    case Choose(threshold) =>
      n.busy.Free? && n.taken == None && n.shot.NoShot? && n.lastApplied != 0 && n.lastApplied >= n.log.snapIndex + threshold
    case ReadState => n.shot.Chosen?
    case Save => n.busy.Free? && n.shot.Read?
    case CompactLog => n.busy.Saved?
    case CutWal => n.busy.Compacted?
    case Send => n.snap.index > 0
    case Receive(s) => n.busy.Free? && s.index > n.commit
    case Restore => n.busy.Received?
    case Shorten => n.busy.Restored?
    case Reposition => n.busy.Shortened?
    case Crash => true
  }

  /** Opening the log file with the saved snapshot's boundary (RaftLog.SnapshotThenCrash). */
  function LogOnDisk(n: Node): RLog
    requires n.log.Valid()
  {
    n.log.CompactTo(n.snap.index, n.snap.term)
  }

  function StoreOnDisk(n: Node): Store {
    Replay(Store(n.snap.data, n.snap.index), n.snap.index, n.wal)
  }

  function Step(n: Node, a: Action): Node
    requires n.log.Valid() && (a.Take? ==> n.busy.Free?)
    requires a.Apply? ==> n.taken.Some?
    requires a.Finish? ==> n.taken.Some?
    requires a.ReadState? ==> n.shot.Chosen?
    requires a.Save? ==> n.shot.Read?
    requires a.CompactLog? ==> n.busy.Saved?
    requires a.CutWal? ==> n.busy.Compacted?
    requires a.Restore? ==> n.busy.Received?
    requires a.Shorten? ==> n.busy.Restored?
    requires a.Reposition? ==> n.busy.Shortened?
  {
    match a
    case Learn(l, commit) => n.(log := l, commit := commit)
    case Propose(e, call) => n.(log := n.log.Append(e), waiters := n.waiters[e.index := call])
    case StepDown => n.(waiters := map[])
    case Take => StepTake(n)
    case Apply => StepApply(n)
    case Finish =>
      n.(taken := None, lastApplied := if n.taken.value.index > n.lastApplied then n.taken.value.index else n.lastApplied)
    case Choose(_) =>
      if n.log.TermAt(n.lastApplied) == 0 then n else n.(shot := Chosen(n.lastApplied, n.log.TermAt(n.lastApplied)))
    case ReadState => n.(shot := Read(n.shot.index, n.shot.term, n.store.data))
    case Save =>
      if n.shot.index <= n.log.snapIndex then n.(shot := NoShot)
      else n.(shot := NoShot, snap := SnapFile(n.shot.index, n.shot.term, n.shot.data), busy := Saved(n.shot.index, n.shot.term))
    case CompactLog => n.(log := n.log.CompactTo(n.busy.index, n.busy.term), busy := Compacted(n.busy.index))
    case CutWal => n.(wal := if n.busy.index < n.store.applied then n.wal else [], busy := Free)
    case Send => n
    case Receive(s) => n.(waiters := map[], snap := s, busy := Received(s))
    case Restore => n.(store := Store(n.busy.snap.data, n.busy.snap.index), wal := [], busy := Restored(n.busy.snap))
    case Shorten => n.(log := n.log.CompactTo(n.busy.snap.index, n.busy.snap.term), busy := Shortened(n.busy.snap))
    case Reposition => n.(commit := n.busy.snap.index, lastApplied := n.busy.snap.index, busy := Free)
    case Crash => StepCrash(n)
  }

  /** The entry leaves the log's next place, and the call that waits for it the waiting list. */
  function StepTake(n: Node): Node
    requires n.log.Valid()
  {
    var i := n.lastApplied + 1;
    var waiter := if i in n.waiters then Some(n.waiters[i]) else None;
    var m := n.(waiters := n.waiters - {i});
    match n.log.At(i)
    case None => m.(lastApplied := i)
    case Some(e) => m.(taken := Some(Taken(i, e, waiter, None, 0)))
  }

  /** The store is called without the lock; a command that is not skipped goes to the write-ahead log. */
  function StepApply(n: Node): Node
    requires n.taken.Some?
  {
    var t := n.taken.value;
    var (store, r) := ApplyEntry(n.store, t.entry);
    var logged := t.entry.payload.Normal? && t.index > n.store.applied;
    n.(store := store, taken := Some(t.(result := Some(r), seen := Max(t.index, n.store.applied))),
       wal := if logged then n.wal + [WalRecord(t.index, t.entry.payload.command)] else n.wal)
  }

  function StepCrash(n: Node): Node
    requires n.log.Valid()
  {
    var store, log := StoreOnDisk(n), LogOnDisk(n);
    var start := if log.snapIndex > store.applied then log.snapIndex else store.applied;
    Node(store, log, start, start, None, NoShot, Free, map[], n.snap, n.wal)
  }

  // ---- Invariant ----

  ghost predicate Positions(n: Node) {
    match n.busy
    case Shortened(s) => n.lastApplied <= n.commit < s.index == n.log.snapIndex <= n.log.LastIndex()
    case _ => n.log.snapIndex <= n.lastApplied <= n.commit <= n.log.LastIndex()
  }

  /** How far the store is to have come, counting an entry that has been applied and not yet announced. */
  function Upto(n: Node): nat {
    if n.taken.Some? && n.taken.value.result.Some? && n.taken.value.index > n.lastApplied then n.taken.value.index else n.lastApplied
  }

  ghost predicate StoreOk(ledger: seq<Entry>, n: Node) {
    && n.store.applied <= |ledger| && n.store.data == Fold(ledger[..n.store.applied])
    && match n.busy
       case Restored(s) => n.store.applied == s.index
       case Shortened(s) => n.store.applied == s.index
       case _ => n.store.applied <= Upto(n) && Calm(ledger, n.store.applied, Upto(n))
  }

  ghost predicate TakenOk(ledger: seq<Entry>, n: Node) {
    n.taken.Some? ==>
      && n.shot.NoShot? && !n.busy.Saved? && !n.busy.Compacted?
      && 0 < n.taken.value.index <= n.lastApplied + 1 && n.taken.value.index <= n.commit
      && n.commit <= |ledger| && n.taken.value.entry == ledger[n.taken.value.index - 1]
  }

  /** What an entry returns when the store has come as far as `seen`: an Incr the number there, all else nothing. */
  function ResultSeen(ledger: seq<Entry>, e: Entry, seen: nat): Result
    requires seen <= |ledger|
  {
    if e.payload.Normal? && e.payload.command.op == Incr then Num(CurrentInt(Fold(ledger[..seen]), e.payload.command.key)) else Nil
  }

  ghost predicate ResultOk(ledger: seq<Entry>, n: Node) {
    n.taken.Some? && n.taken.value.result.Some? ==>
      && n.taken.value.index <= n.taken.value.seen <= |ledger|
      && n.taken.value.result.value == ResultSeen(ledger, n.taken.value.entry, n.taken.value.seen)
  }

  /** The snapshot on disk is exact, and the log's boundary is there or on its way there. */
  ghost predicate SnapOk(ledger: seq<Entry>, n: Node) {
    && Exact(ledger, n.snap)
    && match n.busy
       case Free => n.snap.index == n.log.snapIndex
       case Saved(i, t) => n.snap.index == i && n.snap.term == t && n.log.snapIndex < i <= n.lastApplied
       case Compacted(i) => n.snap.index == i == n.log.snapIndex
       case Received(s) => n.snap == s && s.index > n.commit
       case Restored(s) => n.snap == s && s.index > n.commit
       case Shortened(s) => n.snap == s
  }

  /** Records of the store commands past `low` up to `high`. */
  function Records(ledger: seq<Entry>, low: nat, high: nat): seq<WalRecord>
    requires high <= |ledger|
  {
    if high <= low then []
    else Records(ledger, low, high - 1) + OneRecord(ledger[high - 1], high)
  }

  function OneRecord(e: Entry, index: nat): seq<WalRecord> {
    if e.payload.Normal? then [WalRecord(index, e.payload.command)] else []
  }

  /** The records that replaying on a snapshot at `index` does not skip. */
  function Live(wal: seq<WalRecord>, index: nat): seq<WalRecord> {
    if |wal| == 0 then []
    else Live(wal[..|wal| - 1], index) + if wal[|wal| - 1].index > index then [wal[|wal| - 1]] else []
  }

  /** Past the snapshot, the write-ahead log has exactly what the store has applied. */
  ghost predicate WalOk(ledger: seq<Entry>, n: Node) {
    && n.store.applied <= |ledger|
    && (forall r | r in n.wal :: r.index > 0)
    && Live(n.wal, n.snap.index) == Records(ledger, n.snap.index, n.store.applied)
  }

  /** A snapshot under way is of the state it is for, unless an installed one will have made it too late. */
  ghost predicate ShotOk(ledger: seq<Entry>, n: Node) {
    match n.shot
    case NoShot => true
    case Chosen(i, t) => TooLate(n, i) || (i == n.lastApplied && t == TermOf(ledger, i))
    case Read(i, t, d) => TooLate(n, i) || (i == n.lastApplied && Exact(ledger, SnapFile(i, t, d)))
  }

  predicate TooLate(n: Node, i: nat) {
    || i <= n.log.snapIndex
    || (n.busy.Received? && i <= n.busy.snap.index)
    || (n.busy.Restored? && i <= n.busy.snap.index)
  }

  ghost predicate NodeOk(ledger: seq<Entry>, n: Node) {
    && Holds(ledger, n.log, n.commit) && Positions(n)
    && StoreOk(ledger, n) && TakenOk(ledger, n) && ResultOk(ledger, n) && SnapOk(ledger, n) && WalOk(ledger, n) && ShotOk(ledger, n)
    && (n.shot.NoShot? || n.taken == None)
    && (n.busy.Saved? || n.busy.Compacted? ==> n.shot.NoShot?)
  }

  // ---- The fold and the records ----

  lemma FoldNext(ledger: seq<Entry>, i: nat)
    requires 0 < i <= |ledger|
    ensures Fold(ledger[..i]) == if ledger[i - 1].payload.Normal? then Execute(Fold(ledger[..i - 1]), ledger[i - 1].payload.command).0
                                 else Fold(ledger[..i - 1])
  {
    assert ledger[..i][..i - 1] == ledger[..i - 1];
  }

  lemma {:induction false} CalmFold(ledger: seq<Entry>, low: nat, high: nat)
    requires low <= high && Calm(ledger, low, high)
    ensures Fold(ledger[..high]) == Fold(ledger[..low])
  {
    hide Fold;
    if low < high {
      CalmFold(ledger, low, high - 1);
      FoldNext(ledger, high);
    }
  }

  lemma {:induction false} CalmRecords(ledger: seq<Entry>, base: nat, low: nat, high: nat)
    requires low <= high && Calm(ledger, low, high)
    ensures Records(ledger, base, high) == Records(ledger, base, low)
  {
    if low < high {
      CalmRecords(ledger, base, low, high - 1);
    }
  }

  lemma {:induction false} LiveTwice(wal: seq<WalRecord>, low: nat, high: nat)
    requires low <= high
    ensures Live(Live(wal, low), high) == Live(wal, high)
  {
    if |wal| > 0 {
      var init, r := wal[..|wal| - 1], wal[|wal| - 1];
      LiveTwice(init, low, high);
      if r.index > low {
        LiveAdd(Live(init, low), r, high);
      } else {
        assert Live(init, low) + [] == Live(init, low);
      }
    }
  }

  lemma LiveAdd(wal: seq<WalRecord>, r: WalRecord, index: nat)
    ensures Live(wal + [r], index) == Live(wal, index) + if r.index > index then [r] else []
  {
  }

  lemma {:induction false} LiveRecords(ledger: seq<Entry>, low: nat, high: nat, index: nat)
    requires high <= |ledger| && low <= index
    ensures Live(Records(ledger, low, high), index) == Records(ledger, index, high)
  {
    hide Live, Records;
    RecordsStep(ledger, low, high);
    RecordsStep(ledger, index, high);
    if high <= low {
      LiveNothing(index);
    } else {
      LiveRecords(ledger, low, high - 1, index);
      RecordsStep(ledger, index, high - 1);
      LiveOne(Records(ledger, low, high - 1), ledger[high - 1], high, index);
    }
  }

  lemma LiveNothing(index: nat)
    ensures Live([], index) == []
  {
  }

  lemma LiveOne(wal: seq<WalRecord>, e: Entry, i: nat, index: nat)
    ensures Live(wal + OneRecord(e, i), index) == Live(wal, index) + if i > index then OneRecord(e, i) else []
  {
    hide Live;
    if e.payload.Normal? {
      LiveAdd(wal, WalRecord(i, e.payload.command), index);
    } else {
      assert wal + [] == wal && Live(wal, index) + [] == Live(wal, index);
    }
  }

  /** A later snapshot leaves fewer records live, and still those it needs. */
  lemma LaterSnapshot(ledger: seq<Entry>, wal: seq<WalRecord>, low: nat, index: nat, applied: nat)
    requires applied <= |ledger| && low <= index && Live(wal, low) == Records(ledger, low, applied)
    ensures Live(wal, index) == Records(ledger, index, applied)
  {
    LiveTwice(wal, low, index);
    LiveRecords(ledger, low, applied, index);
  }

  // ---- Recovery ----

  /** Records a snapshot covers do not matter to a replay. */
  lemma {:induction false} ReplayLive(s: Store, index: nat, wal: seq<WalRecord>)
    requires forall r | r in wal :: r.index > 0
    ensures Replay(s, index, wal) == Replay(s, index, Live(wal, index))
  {
    hide Execute;
    if |wal| > 0 {
      var init, r := wal[..|wal| - 1], wal[|wal| - 1];
      ReplayLive(s, index, init);
      if r.index > index {
        assert (Live(init, index) + [r])[..|Live(init, index)|] == Live(init, index);
      } else {
        assert Live(init, index) + [] == Live(init, index);
      }
    }
  }

  lemma ReplayAdd(s: Store, index: nat, rs: seq<WalRecord>, r: WalRecord)
    ensures Replay(s, index, rs + [r]) == ReplayOne(Replay(s, index, rs), index, r)
  {
    assert (rs + [r])[..|rs|] == rs;
  }

  lemma RecordsStep(ledger: seq<Entry>, low: nat, high: nat)
    requires high <= |ledger|
    ensures high <= low ==> Records(ledger, low, high) == []
    ensures low < high ==> Records(ledger, low, high) == Records(ledger, low, high - 1) + OneRecord(ledger[high - 1], high)
  {
  }

  lemma ReplayNothing(s: Store, index: nat)
    ensures Replay(s, index, []) == s
  {
  }

  /** Replaying the ledger's records on an exact snapshot gives the fold, up to the last store command. */
  lemma {:induction false} ReplayRecords(ledger: seq<Entry>, index: nat, high: nat)
    requires index <= |ledger| && high <= |ledger|
    ensures var s := Replay(Store(Fold(ledger[..index]), index), index, Records(ledger, index, high));
            && index <= s.applied && (index <= high ==> s.applied <= high) && (high < index ==> s.applied == index)
            && s.data == Fold(ledger[..s.applied])
            && Calm(ledger, s.applied, high)
  {
    hide Execute, Fold, Replay, Records;
    RecordsStep(ledger, index, high);
    if high > index {
      ReplayRecords(ledger, index, high - 1);
      var start, rs, e := Store(Fold(ledger[..index]), index), Records(ledger, index, high - 1), ledger[high - 1];
      var s := Replay(start, index, rs);
      FoldNext(ledger, high);
      if e.payload.Normal? {
        ReplayAdd(start, index, rs, WalRecord(high, e.payload.command));
        CalmFold(ledger, s.applied, high - 1);
      } else {
        assert rs + [] == rs;
      }
    } else {
      ReplayNothing(Store(Fold(ledger[..index]), index), index);
    }
  }

  /** What is on disk, at any moment, is the fold of the ledger up to where the store or the snapshot has come. */
  lemma RecoveryExact(ledger: seq<Entry>, n: Node)
    requires WalOk(ledger, n) && Exact(ledger, n.snap)
    ensures var s := StoreOnDisk(n);
            && n.snap.index <= s.applied <= |ledger| && s.data == Fold(ledger[..s.applied])
            && (s.applied <= n.snap.index || s.applied <= n.store.applied)
            && Calm(ledger, s.applied, n.store.applied)
  {
    ReplayLive(Store(n.snap.data, n.snap.index), n.snap.index, n.wal);
    ReplayRecords(ledger, n.snap.index, n.store.applied);
  }

  // ---- Every step keeps the invariant ----

  lemma LearnKeeps(ledger: seq<Entry>, n: Node, l: RLog, commit: nat)
    requires NodeOk(ledger, n) && n.log.Valid() && Enabled(ledger, n, Learn(l, commit))
    ensures NodeOk(ledger, Step(n, Learn(l, commit)))
  {
    hide Fold, Live, Records, RLog.Valid, RLog.At;
  }

  lemma ProposeKeeps(ledger: seq<Entry>, n: Node, e: Entry, call: nat)
    requires NodeOk(ledger, n) && n.log.Valid() && Enabled(ledger, n, Propose(e, call))
    ensures NodeOk(ledger, Step(n, Propose(e, call)))
  {
    hide Fold, Live, Records, RLog.Valid, RLog.At, RLog.Append, RLog.LastIndex, Calm;
    AppendHolds(ledger, n.log, n.commit, e);
  }

  lemma AppendHolds(ledger: seq<Entry>, l: RLog, commit: nat, e: Entry)
    requires Holds(ledger, l, commit) && l.Valid() && commit <= l.LastIndex() && e.index == l.LastIndex() + 1
    ensures Holds(ledger, l.Append(e), commit) && l.Append(e).LastIndex() == l.LastIndex() + 1
    ensures l.Append(e).snapIndex == l.snapIndex && l.Append(e).Valid()
    ensures forall i: nat | i <= l.LastIndex() :: l.Append(e).At(i) == l.At(i)
    ensures l.Append(e).At(e.index) == Some(e)
  {
    var m := l.Append(e);
    forall i | l.snapIndex < i <= commit
      ensures m.At(i) == Some(ledger[i - 1])
    {
      assert l.At(i) == Some(ledger[i - 1]);
    }
  }

  lemma StepDownKeeps(ledger: seq<Entry>, n: Node)
    requires NodeOk(ledger, n) && n.log.Valid() && Enabled(ledger, n, StepDown)
    ensures NodeOk(ledger, Step(n, StepDown))
  {
    hide Fold, Live, Records, RLog.Valid, RLog.At, Calm;
  }

  /** The branch for a committed entry that is not in the log is never taken. */
  lemma TakeFinds(ledger: seq<Entry>, n: Node)
    requires NodeOk(ledger, n) && n.log.Valid() && Enabled(ledger, n, Take)
    ensures n.log.At(n.lastApplied + 1) == Some(ledger[n.lastApplied])
  {
  }

  lemma TakeKeeps(ledger: seq<Entry>, n: Node)
    requires NodeOk(ledger, n) && n.log.Valid() && Enabled(ledger, n, Take)
    ensures NodeOk(ledger, Step(n, Take))
  {
    hide Fold, Live, Records, RLog.Valid, RLog.At;
    TakeFinds(ledger, n);
  }

  lemma FinishKeeps(ledger: seq<Entry>, n: Node)
    requires NodeOk(ledger, n) && n.log.Valid() && Enabled(ledger, n, Finish)
    ensures NodeOk(ledger, Step(n, Finish))
  {
    hide Fold, Live, Records, RLog.Valid, RLog.At;
  }

  lemma ChooseKeeps(ledger: seq<Entry>, n: Node, threshold: nat)
    requires NodeOk(ledger, n) && n.log.Valid() && Enabled(ledger, n, Choose(threshold))
    ensures NodeOk(ledger, Step(n, Choose(threshold)))
  {
    hide Fold, Live, Records;
  }

  lemma ReadStateKeeps(ledger: seq<Entry>, n: Node)
    requires NodeOk(ledger, n) && n.log.Valid() && Enabled(ledger, n, ReadState)
    ensures NodeOk(ledger, Step(n, ReadState))
  {
    hide Fold, Live, Records, RLog.Valid, RLog.At, Calm;
    StateRead(ledger, n);
  }

  /** With no entry in hand and no snapshot being installed, the state read is the fold up to the apply index. */
  lemma StateRead(ledger: seq<Entry>, n: Node)
    requires NodeOk(ledger, n) && n.taken == None && n.lastApplied <= |ledger|
    ensures n.busy.Restored? || n.busy.Shortened? || n.store.data == Fold(ledger[..n.lastApplied])
  {
    hide Fold, Live, Records, RLog.Valid, RLog.At;
    if !(n.busy.Restored? || n.busy.Shortened?) {
      CalmFold(ledger, n.store.applied, n.lastApplied);
    }
  }

  lemma SaveKeeps(ledger: seq<Entry>, n: Node)
    requires NodeOk(ledger, n) && n.log.Valid() && Enabled(ledger, n, Save)
    ensures NodeOk(ledger, Step(n, Save))
  {
    hide Fold, Live, Records, RLog.Valid, RLog.At, Calm;
    LaterSnapshot(ledger, n.wal, n.snap.index, if n.shot.index > n.snap.index then n.shot.index else n.snap.index, n.store.applied);
  }

  /** Compacting within or beyond the log keeps what lies past the new boundary. */
  lemma CompactHolds(ledger: seq<Entry>, l: RLog, commit: nat, index: nat)
    requires Holds(ledger, l, commit) && l.Valid() && index <= |ledger| && l.snapIndex < index
    ensures Holds(ledger, l.CompactTo(index, TermOf(ledger, index)), commit)
    ensures var m := l.CompactTo(index, TermOf(ledger, index));
            m.snapIndex == index && m.LastIndex() == if index > l.LastIndex() then index else l.LastIndex()
  {
    var m := l.CompactTo(index, TermOf(ledger, index));
    forall i | index < i <= commit
      ensures m.At(i) == Some(ledger[i - 1])
    {
      assert l.At(i) == Some(ledger[i - 1]);
    }
  }

  lemma CompactLogKeeps(ledger: seq<Entry>, n: Node)
    requires NodeOk(ledger, n) && n.log.Valid() && Enabled(ledger, n, CompactLog)
    ensures NodeOk(ledger, Step(n, CompactLog))
  {
    hide Fold, Live, Records, RLog.Valid, RLog.At, Calm, RLog.CompactTo, RLog.LastIndex, TermOf;
    CompactHolds(ledger, n.log, n.commit, n.busy.index);
  }

  lemma CutWalKeeps(ledger: seq<Entry>, n: Node)
    requires NodeOk(ledger, n) && n.log.Valid() && Enabled(ledger, n, CutWal)
    ensures NodeOk(ledger, Step(n, CutWal))
  {
  }

  lemma ReceiveKeeps(ledger: seq<Entry>, n: Node, s: SnapFile)
    requires NodeOk(ledger, n) && n.log.Valid() && Enabled(ledger, n, Receive(s)) && Exact(ledger, s)
    ensures NodeOk(ledger, Step(n, Receive(s)))
  {
    hide Fold, Live, Records, RLog.Valid, RLog.At, Calm;
    LaterSnapshot(ledger, n.wal, n.snap.index, s.index, n.store.applied);
  }

  lemma RestoreKeeps(ledger: seq<Entry>, n: Node)
    requires NodeOk(ledger, n) && n.log.Valid() && Enabled(ledger, n, Restore)
    ensures NodeOk(ledger, Step(n, Restore))
  {
    hide Fold, RLog.Valid, RLog.At, Calm;
  }

  lemma ShortenKeeps(ledger: seq<Entry>, n: Node)
    requires NodeOk(ledger, n) && n.log.Valid() && Enabled(ledger, n, Shorten)
    ensures NodeOk(ledger, Step(n, Shorten))
  {
    hide Fold, Live, Records, RLog.Valid, RLog.At, Calm, RLog.CompactTo, RLog.LastIndex, TermOf;
    CompactHolds(ledger, n.log, n.commit, n.busy.snap.index);
  }

  lemma RepositionKeeps(ledger: seq<Entry>, n: Node)
    requires NodeOk(ledger, n) && n.log.Valid() && Enabled(ledger, n, Reposition)
    ensures NodeOk(ledger, Step(n, Reposition))
  {
    hide Fold, Live, Records, RLog.Valid, RLog.At;
  }

  // ---- Applying ----

  /** Is the entry in hand one that the store has not applied? If not, its call is skipped, or it is no command. */
  predicate Executes(n: Node)
    requires n.taken.Some?
  {
    n.taken.value.entry.payload.Normal? && n.taken.value.index > n.store.applied
  }

  /** An entry that executes is the next command after all that the store has applied. */
  lemma ExecutesNext(ledger: seq<Entry>, n: Node)
    requires NodeOk(ledger, n) && Enabled(ledger, n, Apply) && Executes(n)
    ensures var i := n.taken.value.index;
            && i == n.lastApplied + 1 <= |ledger| && n.store.applied < i && Calm(ledger, n.store.applied, i - 1)
            && !n.busy.Restored? && !n.busy.Shortened?
  {
  }

  lemma ExecuteStore(ledger: seq<Entry>, n: Node)
    requires NodeOk(ledger, n) && Enabled(ledger, n, Apply) && Executes(n) && n.taken.value.entry.index == n.taken.value.index
    ensures var i, m := n.taken.value.index, StepApply(n);
            && 0 < i <= |ledger| && m.store == Store(Fold(ledger[..i]), i)
            && m.wal == n.wal + [WalRecord(i, n.taken.value.entry.payload.command)]
  {
    hide Fold, Live, Records, RLog.Valid, RLog.At, Execute, Calm;
    var i := n.taken.value.index;
    ExecutesNext(ledger, n);
    CalmFold(ledger, n.store.applied, i - 1);
    FoldNext(ledger, i);
  }

  lemma ExecuteWal(ledger: seq<Entry>, n: Node, c: Command, i: nat)
    requires WalOk(ledger, n) && n.store.applied < i <= |ledger| && Calm(ledger, n.store.applied, i - 1)
    requires ledger[i - 1].payload == Normal(c)
    ensures Live(n.wal + [WalRecord(i, c)], n.snap.index) == Records(ledger, n.snap.index, i)
  {
    LiveAdd(n.wal, WalRecord(i, c), n.snap.index);
    if n.snap.index < i {
      CalmRecords(ledger, n.snap.index, n.store.applied, i - 1);
    }
  }

  lemma ApplyKeeps(ledger: seq<Entry>, n: Node)
    requires NodeOk(ledger, n) && n.log.Valid() && Enabled(ledger, n, Apply) && Contiguous(ledger, 1)
    ensures NodeOk(ledger, Step(n, Apply))
  {
    hide Fold, Live, Records, RLog.Valid, RLog.At, Execute, ResultOk, Max;
    var i := n.taken.value.index;
    AppliedResult(ledger, n);
    if Executes(n) {
      ExecutesNext(ledger, n);
      ExecuteStore(ledger, n);
      ExecuteWal(ledger, n, n.taken.value.entry.payload.command, i);
      ExecutedOk(ledger, n);
    } else {
      assert StepApply(n).store == n.store && StepApply(n).wal == n.wal;
    }
  }

  /** The result is that of the store as far as it has come, the entry included. */
  lemma AppliedResult(ledger: seq<Entry>, n: Node)
    requires NodeOk(ledger, n) && Enabled(ledger, n, Apply) && n.taken.value.entry.index == n.taken.value.index
    ensures ResultOk(ledger, StepApply(n)) && StepApply(n).taken.value.seen == Max(n.taken.value.index, n.store.applied)
  {
    hide NodeOk, Enabled, ResultSeen, ApplyEntry, Execute, Fold;
    HandEntry(ledger, n);
    if Executes(n) {
      ExecutedResult(ledger, n);
    } else {
      SkippedResult(ledger, n.store, n.taken.value.entry);
    }
  }

  lemma HandEntry(ledger: seq<Entry>, n: Node)
    requires NodeOk(ledger, n) && Enabled(ledger, n, Apply)
    ensures n.taken.Some? && n.store.applied <= |ledger| && n.store.data == Fold(ledger[..n.store.applied])
    ensures 0 < n.taken.value.index <= |ledger| && n.taken.value.entry == ledger[n.taken.value.index - 1]
  {
    hide Fold, Live, Records, RLog.Valid, Calm;
  }

  lemma ExecutedResult(ledger: seq<Entry>, n: Node)
    requires NodeOk(ledger, n) && Enabled(ledger, n, Apply) && Executes(n) && n.taken.value.entry.index == n.taken.value.index
    ensures n.taken.value.index <= |ledger| && n.store.applied < n.taken.value.index
    ensures ApplyEntry(n.store, n.taken.value.entry).1 == ResultSeen(ledger, n.taken.value.entry, n.taken.value.index)
  {
    hide NodeOk, Enabled, Fold, Execute, Calm, CurrentInt;
    HandEntry(ledger, n);
    var e, k := n.taken.value.entry, n.taken.value.index;
    ExecutesNext(ledger, n);
    CalmFold(ledger, n.store.applied, k - 1);
    FoldNext(ledger, k);
    NumberKept(Fold(ledger[..k - 1]), e.payload.command);
    OnlyIncrNumbers(n.store.data, e.payload.command);
  }

  lemma OnlyIncrNumbers(data: Data, c: Command)
    ensures c.op != Incr ==> Execute(data, c).1 == Nil
  {
    hide FormatInt, ParseInt;
  }

  /** The store has come to the entry already, or it is no command. */
  lemma SkippedResult(ledger: seq<Entry>, s: Store, e: Entry)
    requires s.applied <= |ledger| && s.data == Fold(ledger[..s.applied]) && 0 < e.index <= |ledger|
    requires !e.payload.Normal? || e.index <= s.applied
    ensures ApplyEntry(s, e).1 == ResultSeen(ledger, e, Max(e.index, s.applied))
  {
    hide Fold, CurrentInt, Execute;
  }

  /** An Incr returns the number it stores. */
  lemma NumberKept(data: Data, c: Command)
    ensures c.op == Incr ==> Execute(data, c).1 == Num(CurrentInt(Execute(data, c).0, c.key))
  {
    hide FormatInt, ParseInt;
    ParseFormat(Successor(CurrentInt(data, c.key)));
  }

  lemma ExecutedOk(ledger: seq<Entry>, n: Node)
    requires NodeOk(ledger, n) && Enabled(ledger, n, Apply) && Executes(n)
    requires var i, m := n.taken.value.index, StepApply(n);
             && i == n.lastApplied + 1 <= |ledger| && !n.busy.Restored? && !n.busy.Shortened?
             && m.store == Store(Fold(ledger[..i]), i)
             && m.wal == n.wal + [WalRecord(i, n.taken.value.entry.payload.command)]
             && Live(m.wal, n.snap.index) == Records(ledger, n.snap.index, i) && ResultOk(ledger, m)
    ensures NodeOk(ledger, StepApply(n))
  {
    hide Fold, Live, Records, RLog.Valid, RLog.At, ApplyEntry, ResultOk, Max;
  }

  // ---- Crashing ----

  lemma CrashKeeps(ledger: seq<Entry>, n: Node)
    requires NodeOk(ledger, n) && n.log.Valid()
    ensures NodeOk(ledger, Step(n, Crash))
  {
    hide Fold, Live, Records, RLog.Valid, RLog.At, Replay, Calm, RLog.CompactTo, RLog.LastIndex, TermOf;
    RecoveryExact(ledger, n);
    StoreInLog(ledger, n);
    var s := StoreOnDisk(n);
    CalmRecordsAny(ledger, n.snap.index, s.applied, n.store.applied);
    if n.snap.index > n.log.snapIndex {
      CompactHolds(ledger, n.log, n.commit, n.snap.index);
      HoldsLess(ledger, LogOnDisk(n), n.commit, s.applied);
    } else {
      CompactNothing(n.log, n.snap.index, n.snap.term);
      HoldsLess(ledger, n.log, n.commit, s.applied);
    }
    CalmSame(ledger, s.applied);
  }

  lemma CompactNothing(l: RLog, index: nat, term: nat)
    requires l.Valid() && index <= l.snapIndex
    ensures l.CompactTo(index, term) == l
  {
  }

  lemma CalmSame(ledger: seq<Entry>, k: nat)
    requires k <= |ledger|
    ensures Calm(ledger, k, k)
  {
  }

  lemma CalmRecordsAny(ledger: seq<Entry>, base: nat, low: nat, high: nat)
    requires base <= low <= |ledger| && high <= |ledger| && Calm(ledger, low, high)
    ensures low <= high || low == base ==> Records(ledger, base, high) == Records(ledger, base, low)
  {
  }

  lemma HoldsLess(ledger: seq<Entry>, l: RLog, commit: nat, k: nat)
    requires Holds(ledger, l, commit) && k <= |ledger| && (k <= commit || k <= l.snapIndex)
    ensures Holds(ledger, l, k)
  {
  }

  /** The store is never ahead of the committed part of the log, or else the snapshot on disk is as far. */
  lemma StoreInLog(ledger: seq<Entry>, n: Node)
    requires NodeOk(ledger, n)
    ensures n.store.applied <= n.commit || n.store.applied <= n.snap.index
    ensures n.snap.index >= n.log.snapIndex && (n.commit <= n.log.LastIndex())
  {
  }
}

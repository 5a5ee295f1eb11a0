/**
  Runs of a cluster of apply loops: nodes that take, apply and finish entries, take
  snapshots and are sent those of others, and calls that wait for their entries. The
  store is exact in every state, and what a waiting call is told is determined.
 */
module ApplyRuns {
  import opened Wrappers
  import opened RaftTypes
  import opened CompactLog
  import opened StoreSpec
  import opened Counters
  import opened Decimal
  import opened ApplyLoop

  /** What a call was told, and how far the store of its node had come by then. */
  datatype Answer = Answer(result: Result, seen: nat)

  /** The nodes, the snapshots sent and not lost, the entry each call appended, and the calls answered. */
  datatype World = World(nodes: map<int, Node>, sent: set<SnapFile>, made: map<nat, Entry>, answers: map<nat, Answer>)

  // ---- Runs of the whole cluster ----

  const NEWBORN: Node :=
    Node(EMPTY, RLog(0, 0, []), 0, 0, None, NoShot, Free, map[], SnapFile(0, 0, map[]), [])

  ghost predicate Init(w: World) {
    w.sent == {} && w.made == map[] && w.answers == map[] && forall id | id in w.nodes :: w.nodes[id] == NEWBORN
  }

  /** A call is made once, and no two calls append an entry of the same term and index (Proposals.Numbered). */
  ghost predicate NewCall(made: map<nat, Entry>, e: Entry, call: nat) {
    call !in made && forall c | c in made :: made[c].term != e.term || made[c].index != e.index
  }

  /** The call whose entry has been applied hears of it. */
  function Answered(w: World, n: Node, a: Action): map<nat, Answer> {
    if a.Finish? && n.taken.Some? && n.taken.value.waiter.Some? && n.taken.value.result.Some? then
      w.answers[n.taken.value.waiter.value := Answer(n.taken.value.result.value, n.taken.value.seen)]
    else w.answers
  }

  /** A node may be sent only what some node has saved. */
  ghost predicate Next(ledger: seq<Entry>, w: World, id: int, a: Action, v: World) {
    && id in w.nodes && w.nodes[id].log.Valid() && Enabled(ledger, w.nodes[id], a)
    && (a.Receive? ==> a.snap in w.sent)
    && (a.Propose? ==> NewCall(w.made, a.entry, a.call))
    && v == World(w.nodes[id := Step(w.nodes[id], a)],
                  if a.Send? then w.sent + {w.nodes[id].snap} else w.sent,
                  if a.Propose? then w.made[a.call := a.entry] else w.made,
                  Answered(w, w.nodes[id], a))
  }

  datatype Run = Run(worlds: seq<World>, steps: seq<(int, Action)>)

  ghost predicate IsRun(ledger: seq<Entry>, r: Run) {
    && |r.worlds| == |r.steps| + 1 && Init(r.worlds[0]) && Contiguous(ledger, 1)
    && forall i | 0 <= i < |r.steps| :: NextAt(ledger, r, i)
  }

  ghost predicate NextAt(ledger: seq<Entry>, r: Run, i: nat)
    requires i < |r.steps| && |r.worlds| == |r.steps| + 1
  {
    Next(ledger, r.worlds[i], r.steps[i].0, r.steps[i].1, r.worlds[i + 1])
  }

  ghost predicate WorldOk(ledger: seq<Entry>, w: World) {
    && (forall id | id in w.nodes :: NodeOk(ledger, w.nodes[id]))
    && (forall s | s in w.sent :: Exact(ledger, s))
  }

  // ---- Waiting calls ----

  /** Each call waits past the apply index for the very entry it appended, and none while a snapshot is installed. */
  ghost predicate WaitOk(made: map<nat, Entry>, n: Node)
    requires n.log.Valid()
  {
    && (n.busy.Received? || n.busy.Restored? || n.busy.Shortened? ==> n.waiters == map[])
    && (forall i | i in n.waiters :: WaitsFor(made, n, i))
    && (n.taken.Some? && n.taken.value.waiter.Some? ==> Made(made, n.taken.value.waiter.value, n.taken.value.entry))
  }

  predicate Made(made: map<nat, Entry>, c: nat, e: Entry) {
    c in made && made[c] == e
  }

  ghost predicate WaitsFor(made: map<nat, Entry>, n: Node, i: nat)
    requires i in n.waiters && n.log.Valid()
  {
    && i > n.lastApplied && (n.taken.Some? ==> i != n.taken.value.index)
    && n.waiters[i] in made && made[n.waiters[i]].index == i && n.log.At(i) == Some(made[n.waiters[i]])
  }

  /** A call that was answered had appended a committed entry, and was told what the store then made of it. */
  ghost predicate AnswerOk(ledger: seq<Entry>, made: map<nat, Entry>, c: nat, a: Answer) {
    && c in made && 0 < made[c].index <= a.seen <= |ledger| && ledger[made[c].index - 1] == made[c]
    && a.result == ResultSeen(ledger, made[c], a.seen)
  }

  ghost predicate Distinct(made: map<nat, Entry>) {
    forall c, d | c in made && d in made && made[c].term == made[d].term && made[c].index == made[d].index :: c == d
  }

  ghost predicate CallsOk(ledger: seq<Entry>, w: World) {
    && (forall id | id in w.nodes :: w.nodes[id].log.Valid() && WaitOk(w.made, w.nodes[id]))
    && (forall c | c in w.answers :: AnswerOk(ledger, w.made, c, w.answers[c]))
    && Distinct(w.made)
  }

  lemma NewbornOk(ledger: seq<Entry>)
    ensures NodeOk(ledger, NEWBORN)
  {
  }

  lemma StepKeeps(ledger: seq<Entry>, n: Node, a: Action)
    requires NodeOk(ledger, n) && n.log.Valid() && Enabled(ledger, n, a) && Contiguous(ledger, 1)
    requires a.Receive? ==> Exact(ledger, a.snap)
    ensures NodeOk(ledger, Step(n, a))
  {
    hide NodeOk, RLog.Valid, Step, Exact;
    match a
    case Learn(l, commit) => LearnKeeps(ledger, n, l, commit);
    case Propose(e, call) => ProposeKeeps(ledger, n, e, call);
    case StepDown => StepDownKeeps(ledger, n);
    case Take => TakeKeeps(ledger, n);
    case Apply => ApplyKeeps(ledger, n);
    case Finish => FinishKeeps(ledger, n);
    case Choose(threshold) => ChooseKeeps(ledger, n, threshold);
    case ReadState => ReadStateKeeps(ledger, n);
    case Save => SaveKeeps(ledger, n);
    case CompactLog => CompactLogKeeps(ledger, n);
    case CutWal => CutWalKeeps(ledger, n);
    case Send => SendKeeps(n);
    case Receive(s) => ReceiveKeeps(ledger, n, s);
    case Restore => RestoreKeeps(ledger, n);
    case Shorten => ShortenKeeps(ledger, n);
    case Reposition => RepositionKeeps(ledger, n);
    case Crash => CrashKeeps(ledger, n);
  }

  lemma SendKeeps(n: Node)
    requires n.log.Valid()
    ensures Step(n, Send) == n
  {
  }

  lemma SavedExact(ledger: seq<Entry>, n: Node)
    requires NodeOk(ledger, n)
    ensures Exact(ledger, n.snap)
  {
  }

  /** The invariant holds in every state of every run. */
  lemma {:induction false} RunOk(ledger: seq<Entry>, r: Run, i: nat)
    requires IsRun(ledger, r) && i < |r.worlds|
    ensures WorldOk(ledger, r.worlds[i])
    decreases i
  {
    hide NodeOk, Exact, Enabled, Step, RLog.Valid;
    if i == 0 {
      NewbornOk(ledger);
    } else {
      RunOk(ledger, r, i - 1);
      assert NextAt(ledger, r, i - 1);
      var w, id, a := r.worlds[i - 1], r.steps[i - 1].0, r.steps[i - 1].1;
      StepKeeps(ledger, w.nodes[id], a);
      SavedExact(ledger, w.nodes[id]);
    }
  }

  lemma MadeMore(a: map<nat, Entry>, b: map<nat, Entry>, n: Node)
    requires n.log.Valid() && WaitOk(a, n) && forall c | c in a :: c in b && b[c] == a[c]
    ensures WaitOk(b, n)
  {
    hide RLog.At, RLog.Valid;
    forall i | i in n.waiters
      ensures WaitsFor(b, n, i)
    {
      assert WaitsFor(a, n, i);
    }
  }

  lemma ProposeWaits(ledger: seq<Entry>, made: map<nat, Entry>, n: Node, e: Entry, call: nat)
    requires NodeOk(ledger, n) && n.log.Valid() && WaitOk(made, n) && Enabled(ledger, n, Propose(e, call)) && Made(made, call, e)
    ensures Step(n, Propose(e, call)).log.Valid() && WaitOk(made, Step(n, Propose(e, call)))
  {
    hide Fold, Live, Records, RLog.Valid, RLog.At, RLog.Append, RLog.LastIndex, Calm;
    AppendHolds(ledger, n.log, n.commit, e);
    var m := Step(n, Propose(e, call));
    forall i | i in m.waiters
      ensures WaitsFor(made, m, i)
    {
      if i != e.index {
        assert WaitsFor(made, n, i);
        AtInside(n.log, i);
      }
    }
  }

  lemma AtInside(l: RLog, i: nat)
    requires l.Valid() && l.At(i).Some?
    ensures l.snapIndex < i <= l.LastIndex()
  {
  }

  lemma TakeWaits(ledger: seq<Entry>, made: map<nat, Entry>, n: Node)
    requires NodeOk(ledger, n) && n.log.Valid() && WaitOk(made, n) && Enabled(ledger, n, Take)
    ensures Step(n, Take).log.Valid() && WaitOk(made, Step(n, Take))
  {
    hide Fold, Live, Records, RLog.Valid, RLog.At, RLog.LastIndex, Calm;
    TakeFinds(ledger, n);
    var m := Step(n, Take);
    assert n.lastApplied + 1 in n.waiters ==> WaitsFor(made, n, n.lastApplied + 1);
    forall i | i in m.waiters
      ensures WaitsFor(made, m, i)
    {
      assert WaitsFor(made, n, i);
    }
  }

  lemma LearnWaits(ledger: seq<Entry>, made: map<nat, Entry>, n: Node, l: RLog, commit: nat)
    requires NodeOk(ledger, n) && n.log.Valid() && WaitOk(made, n) && Enabled(ledger, n, Learn(l, commit))
    ensures Step(n, Learn(l, commit)).log.Valid() && WaitOk(made, Step(n, Learn(l, commit)))
  {
    hide Fold, Live, Records, RLog.Valid, RLog.At, RLog.LastIndex, Calm;
    var m := Step(n, Learn(l, commit));
    forall i | i in m.waiters
      ensures WaitsFor(made, m, i)
    {
      assert WaitsFor(made, n, i);
    }
  }

  /** Compacting up to the apply index takes away no entry that a call waits for. */
  lemma CompactLogWaits(ledger: seq<Entry>, made: map<nat, Entry>, n: Node)
    requires NodeOk(ledger, n) && n.log.Valid() && WaitOk(made, n) && Enabled(ledger, n, CompactLog)
    ensures Step(n, CompactLog).log.Valid() && WaitOk(made, Step(n, CompactLog))
  {
    hide Fold, Live, Records, RLog.Valid, RLog.At, RLog.LastIndex, RLog.CompactTo, Calm;
    var m := Step(n, CompactLog);
    CompactAt(n.log, n.busy.index, n.busy.term);
    forall i | i in m.waiters
      ensures WaitsFor(made, m, i)
    {
      assert WaitsFor(made, n, i);
    }
  }

  lemma CompactAt(l: RLog, index: nat, term: nat)
    requires l.Valid() && l.snapIndex < index
    ensures l.CompactTo(index, term).Valid() && forall i: nat | i > index :: l.CompactTo(index, term).At(i) == l.At(i)
  {
  }

  /** In the other steps no call begins or ceases to wait, but all when a snapshot comes or the node stops. */
  lemma OtherWaits(ledger: seq<Entry>, made: map<nat, Entry>, n: Node, a: Action)
    requires NodeOk(ledger, n) && n.log.Valid() && WaitOk(made, n) && Enabled(ledger, n, a)
    requires !a.Propose? && !a.Take? && !a.Learn? && !a.CompactLog?
    ensures Step(n, a).log.Valid() && WaitOk(made, Step(n, a))
  {
    hide Fold, Live, Records, RLog.Valid, RLog.At, RLog.LastIndex, RLog.CompactTo, Calm, Replay, ApplyEntry, Holds;
    var m := Step(n, a);
    LogsValid(n);
    forall i | i in m.waiters
      ensures m.log.Valid() && WaitsFor(made, m, i)
    {
      assert WaitsFor(made, n, i);
    }
  }

  lemma LogsValid(n: Node)
    requires n.log.Valid()
    ensures LogOnDisk(n).Valid() && forall i: nat, t: nat :: n.log.CompactTo(i, t).Valid()
  {
  }

  lemma StepWaits(ledger: seq<Entry>, made: map<nat, Entry>, n: Node, a: Action)
    requires NodeOk(ledger, n) && n.log.Valid() && WaitOk(made, n) && Enabled(ledger, n, a)
    requires a.Propose? ==> Made(made, a.call, a.entry)
    ensures Step(n, a).log.Valid() && WaitOk(made, Step(n, a))
  {
    hide NodeOk, RLog.Valid, Step, WaitOk;
    match a
    case Propose(e, call) => ProposeWaits(ledger, made, n, e, call);
    case Take => TakeWaits(ledger, made, n);
    case Learn(l, commit) => LearnWaits(ledger, made, n, l, commit);
    case CompactLog => CompactLogWaits(ledger, made, n);
    case _ => OtherWaits(ledger, made, n, a);
  }

  /** What a call is told when its entry is done. */
  lemma FinishAnswers(ledger: seq<Entry>, made: map<nat, Entry>, n: Node)
    requires NodeOk(ledger, n) && n.log.Valid() && WaitOk(made, n) && Enabled(ledger, n, Finish) && n.taken.value.waiter.Some?
    requires Contiguous(ledger, 1)
    ensures AnswerOk(ledger, made, n.taken.value.waiter.value, Answer(n.taken.value.result.value, n.taken.value.seen))
  {
    hide Fold, Live, Records, RLog.Valid, RLog.At, RLog.LastIndex, Calm, ResultSeen;
  }

  lemma AnswerStays(ledger: seq<Entry>, a: map<nat, Entry>, b: map<nat, Entry>, c: nat, x: Answer)
    requires AnswerOk(ledger, a, c, x) && forall d | d in a :: d in b && b[d] == a[d]
    ensures AnswerOk(ledger, b, c, x)
  {
  }

  /** What is said of waiting calls and answers holds in every state of every run. */
  lemma {:induction false} CallsForever(ledger: seq<Entry>, r: Run, i: nat)
    requires IsRun(ledger, r) && i < |r.worlds|
    ensures CallsOk(ledger, r.worlds[i])
    decreases i
  {
    hide NodeOk, Enabled, Step, RLog.Valid, WaitOk, AnswerOk;
    if i == 0 {
      NobodyWaits();
    } else {
      CallsForever(ledger, r, i - 1);
      RunOk(ledger, r, i - 1);
      assert NextAt(ledger, r, i - 1);
      NextCalls(ledger, r.worlds[i - 1], r.steps[i - 1].0, r.steps[i - 1].1, r.worlds[i]);
    }
  }

  lemma NobodyWaits()
    ensures NEWBORN.log.Valid() && WaitOk(map[], NEWBORN)
  {
  }

  lemma NextCalls(ledger: seq<Entry>, w: World, id: int, a: Action, v: World)
    requires WorldOk(ledger, w) && CallsOk(ledger, w) && Next(ledger, w, id, a, v) && Contiguous(ledger, 1)
    ensures CallsOk(ledger, v)
  {
    hide NodeOk, Enabled, Step, RLog.Valid, WaitOk, AnswerOk, Exact;
    var n := w.nodes[id];
    assert forall c | c in w.made :: c in v.made && v.made[c] == w.made[c];
    forall j | j in w.nodes
      ensures WaitOk(v.made, w.nodes[j])
    {
      MadeMore(w.made, v.made, w.nodes[j]);
    }
    StepWaits(ledger, v.made, n, a);
    forall c | c in w.answers
      ensures AnswerOk(ledger, v.made, c, w.answers[c])
    {
      AnswerStays(ledger, w.made, v.made, c, w.answers[c]);
    }
    if a.Finish? && n.taken.Some? && n.taken.value.waiter.Some? && n.taken.value.result.Some? {
      FinishAnswers(ledger, v.made, n);
    }
  }

  ghost predicate Present(r: Run, i: nat, id: int) {
    i < |r.worlds| && id in r.worlds[i].nodes
  }

  // ---- What follows ----

  /**
    In every state the store is the fold of the ledger's commands up to its applied
    index, each once; and if the node crashes there, between any two durable writes,
    it comes back with the fold of all it had applied, or of a snapshot further on.
   */
  lemma ExactlyOnce(ledger: seq<Entry>, r: Run, i: nat, id: int)
    requires IsRun(ledger, r) && Present(r, i, id)
    ensures var n := r.worlds[i].nodes[id];
            && n.log.Valid() && n.store.applied <= |ledger| && n.snap.index <= |ledger|
            && n.store.data == Fold(ledger[..n.store.applied])
            && var back := Step(n, Crash).store;
               && back.applied <= |ledger| && back.data == Fold(ledger[..back.applied])
               && back.data == Fold(ledger[..Max(n.snap.index, n.store.applied)])
  {
    hide Fold, Live, Records, RLog.Valid, RLog.At, Replay, Calm;
    RunOk(ledger, r, i);
    var n := r.worlds[i].nodes[id];
    RecoveryExact(ledger, n);
    var back := StoreOnDisk(n);
    if n.store.applied > back.applied {
      CalmFold(ledger, back.applied, n.store.applied);
    }
  }

  /** Between two entries the store is the fold of everything applied, in full. */
  lemma StoreUpToDate(ledger: seq<Entry>, r: Run, i: nat, id: int)
    requires IsRun(ledger, r) && Present(r, i, id)
    requires r.worlds[i].nodes[id].busy.Free? && r.worlds[i].nodes[id].taken == None
    ensures var n := r.worlds[i].nodes[id];
            n.lastApplied <= |ledger| && n.store.data == Fold(ledger[..n.lastApplied])
  {
    hide Fold, Live, Records, RLog.Valid, RLog.At, Calm;
    RunOk(ledger, r, i);
    StateRead(ledger, r.worlds[i].nodes[id]);
  }

  /** Every snapshot ever saved, or sent, holds the fold of exactly the entries up to its index. */
  lemma SnapshotExact(ledger: seq<Entry>, r: Run, i: nat, id: int)
    requires IsRun(ledger, r) && Present(r, i, id)
    ensures Exact(ledger, r.worlds[i].nodes[id].snap)
    ensures forall s | s in r.worlds[i].sent :: Exact(ledger, s)
  {
    hide Exact, Fold;
    RunOk(ledger, r, i);
    SavedExact(ledger, r.worlds[i].nodes[id]);
  }

  /** Whenever the lock is free the positions are in order and the next entry to apply is in the log. */
  lemma PositionOrder(ledger: seq<Entry>, r: Run, i: nat, id: int)
    requires IsRun(ledger, r) && Present(r, i, id) && r.worlds[i].nodes[id].busy.Free?
    ensures var n := r.worlds[i].nodes[id];
            && n.log.Valid() && n.log.snapIndex <= n.lastApplied <= n.commit <= n.log.LastIndex()
            && n.commit <= |ledger| && n.snap.index == n.log.snapIndex
            && (n.lastApplied < n.commit ==> n.log.At(n.lastApplied + 1) == Some(ledger[n.lastApplied]))
  {
    hide Fold, Live, Records;
    RunOk(ledger, r, i);
  }

  /** Commit and apply indices never go back while the node is up. */
  lemma PositionsGrow(ledger: seq<Entry>, r: Run, i: nat, id: int)
    requires IsRun(ledger, r) && i < |r.steps| && Present(r, i, id) && r.steps[i] != (id, Crash)
    ensures Present(r, i + 1, id)
    ensures r.worlds[i].nodes[id].commit <= r.worlds[i + 1].nodes[id].commit
    ensures r.worlds[i].nodes[id].lastApplied <= r.worlds[i + 1].nodes[id].lastApplied
  {
    hide Fold, Live, Records, RLog.Valid, RLog.At, Calm, StepApply, StepCrash;
    RunOk(ledger, r, i);
    assert NextAt(ledger, r, i);
    var n := r.worlds[i].nodes[id];
    assert NodeOk(ledger, n);
    ApplyStays(n);
  }

  lemma ApplyStays(n: Node)
    ensures n.taken.Some? ==> StepApply(n).commit == n.commit && StepApply(n).lastApplied == n.lastApplied
  {
  }

  // ---- Results ----

  /** What the entry in hand returns. */
  function ResultNow(n: Node): Result
    requires n.taken.Some?
  {
    ApplyEntry(n.store, n.taken.value.entry).1
  }

  /** What an Incr returns on its own is the number right after it. */
  lemma OwnNumber(ledger: seq<Entry>, k: nat, key: string)
    requires 0 < k <= |ledger| && Contiguous(ledger, 1) && IsIncr(ledger[k - 1], key)
    ensures ResultAt(ledger, k) == Num(CurrentInt(Fold(ledger[..k]), key))
  {
    hide FormatInt, ParseInt, Fold, CurrentInt;
    FoldNext(ledger, k);
    NumberKept(Fold(ledger[..k - 1]), ledger[k - 1].payload.command);
  }

  lemma HandFacts(ledger: seq<Entry>, r: Run, i: nat, id: int)
    requires IsRun(ledger, r) && Present(r, i, id) && Enabled(ledger, r.worlds[i].nodes[id], Apply)
    ensures var n := r.worlds[i].nodes[id];
            var e, k := n.taken.value.entry, n.taken.value.index;
            && 0 < k <= |ledger| && e == ledger[k - 1] && e.index == k && n.store.applied <= |ledger|
            && ResultNow(n) == ResultSeen(ledger, e, Max(k, n.store.applied))
  {
    hide Live, Records, RLog.Valid, RLog.At, Fold, FormatInt, ParseInt, Calm;
    RunOk(ledger, r, i);
    var n := r.worlds[i].nodes[id];
    assert NodeOk(ledger, n);
    AppliedResult(ledger, n);
  }

  /**
    An entry in hand returns its own result if and only if it executes, is no Incr, or
    the commands past it that the store already has leave the number at its key: they
    add nothing to it, or end up with it again. They are there only if a snapshot was
    installed after the entry was taken.
   */
  lemma ResultOwnIff(ledger: seq<Entry>, r: Run, i: nat, id: int)
    requires IsRun(ledger, r) && Present(r, i, id) && Enabled(ledger, r.worlds[i].nodes[id], Apply) && |ledger| < TWO_64
    ensures var n := r.worlds[i].nodes[id];
            var e, k := n.taken.value.entry, n.taken.value.index;
            && 0 < k <= |ledger| && e == ledger[k - 1] && n.store.applied <= |ledger|
            && (ResultNow(n) == ResultAt(ledger, k) <==>
                  || !e.payload.Normal? || e.payload.command.op != Incr
                  || k > n.store.applied
                  || Restores(ledger[k..n.store.applied], e.payload.command.key, CurrentInt(Fold(ledger[..k]), e.payload.command.key)))
  {
    hide NodeOk, Fold, ParseInt, Between, CurrentInt, IsRun, Restores;
    HandFacts(ledger, r, i, id);
    var n := r.worlds[i].nodes[id];
    var e, k := n.taken.value.entry, n.taken.value.index;
    if e.payload.Normal? && e.payload.command.op == Incr {
      RunContiguous(ledger, r);
      OwnNumber(ledger, k, e.payload.command.key);
      if k <= n.store.applied {
        NumberKeptIff(ledger, k, n.store.applied, e.payload.command.key);
      }
    } else {
      NoNumber(ledger, k);
    }
  }

  lemma RunContiguous(ledger: seq<Entry>, r: Run)
    requires IsRun(ledger, r)
    ensures Contiguous(ledger, 1)
  {
  }

  lemma NoNumber(ledger: seq<Entry>, k: nat)
    requires 0 < k <= |ledger|
    requires !ledger[k - 1].payload.Normal? || ledger[k - 1].payload.command.op != Incr
    ensures ResultAt(ledger, k) == Nil
  {
    hide StoreAfter;
  }

  /** For a key written by Incr only: if and only if it executes, or no Incr of the key lies past it up to where the store is. */
  lemma CounterResultOwnIff(ledger: seq<Entry>, r: Run, i: nat, id: int, key: string)
    requires IsRun(ledger, r) && Present(r, i, id) && Enabled(ledger, r.worlds[i].nodes[id], Apply)
    requires Tame(ledger, key) && |ledger| <= INT64_MAX && IsIncr(r.worlds[i].nodes[id].taken.value.entry, key)
    ensures var n := r.worlds[i].nodes[id];
            var k := n.taken.value.index;
            && 0 < k <= |ledger| && n.store.applied <= |ledger|
            && (ResultNow(n) == ResultAt(ledger, k) <==>
                  k > n.store.applied || forall j | k <= j < n.store.applied :: !IsIncr(ledger[j], key))
  {
    hide NodeOk, Fold, CurrentInt, IsRun, Tame, CountIncr;
    HandFacts(ledger, r, i, id);
    RunContiguous(ledger, r);
    var n := r.worlds[i].nodes[id];
    var k := n.taken.value.index;
    OwnNumber(ledger, k, key);
    if k <= n.store.applied {
      CountedTo(ledger, k, key);
      CountedTo(ledger, n.store.applied, key);
      EqualCountsIff(ledger, k, n.store.applied, key);
    }
  }

  lemma CountedTo(ledger: seq<Entry>, k: nat, key: string)
    requires Tame(ledger, key) && k <= |ledger| <= INT64_MAX
    ensures CurrentInt(Fold(ledger[..k]), key) == CountIncr(ledger[..k], key)
  {
    CounterCounts(ledger[..k], key);
  }

  // ---- Numbers that calls were told ----

  lemma AnswerFacts(ledger: seq<Entry>, r: Run, i: nat, c: nat)
    requires IsRun(ledger, r) && i < |r.worlds| && c in r.worlds[i].answers
    ensures AnswerOk(ledger, r.worlds[i].made, c, r.worlds[i].answers[c])
  {
    hide AnswerOk, NodeOk, WaitOk, IsRun;
    CallsForever(ledger, r, i);
  }

  /**
    With snapshots installed at any time: a call whose Incr of a counter is answered
    has appended a committed entry, and the number it is told is how many Incr the
    ledger has as far as the store had come, which is at least to that entry.
   */
  lemma NumberTold(ledger: seq<Entry>, r: Run, i: nat, c: nat, key: string)
    requires IsRun(ledger, r) && i < |r.worlds| && c in r.worlds[i].answers
    requires Tame(ledger, key) && |ledger| <= INT64_MAX
    ensures c in r.worlds[i].made
    ensures var e, a := r.worlds[i].made[c], r.worlds[i].answers[c];
            && 0 < e.index <= a.seen <= |ledger| && ledger[e.index - 1] == e
            && (IsIncr(e, key) ==>
                  && a.result == Num(CountIncr(ledger[..a.seen], key))
                  && (a.result == ResultAt(ledger, e.index) <==> forall j | e.index <= j < a.seen :: !IsIncr(ledger[j], key)))
  {
    hide NodeOk, Fold, CurrentInt, IsRun, Tame, CountIncr, ResultAt;
    AnswerFacts(ledger, r, i, c);
    RunContiguous(ledger, r);
    var e, a := r.worlds[i].made[c], r.worlds[i].answers[c];
    if IsIncr(e, key) {
      OwnNumber(ledger, e.index, key);
      CountedTo(ledger, a.seen, key);
      CountedTo(ledger, e.index, key);
      EqualCountsIff(ledger, e.index, a.seen, key);
    }
  }

  /** Two calls answered are two entries of the ledger. */
  lemma CallsApart(ledger: seq<Entry>, r: Run, i: nat, c: nat, d: nat)
    requires IsRun(ledger, r) && i < |r.worlds| && c in r.worlds[i].answers && d in r.worlds[i].answers && c != d
    ensures c in r.worlds[i].made && d in r.worlds[i].made && r.worlds[i].made[c].index != r.worlds[i].made[d].index
  {
    hide NodeOk, WaitOk, IsRun, ResultSeen;
    CallsForever(ledger, r, i);
  }

  /**
    Exactly when two Incr of one counter return the same number, anywhere in the
    cluster: no Incr of it lies between the points up to which the two stores had come.
    This takes a snapshot that overtook the earlier of the two up to the later at least;
    two calls of which neither was overtaken are told different numbers.
   */
  lemma SameNumberIff(ledger: seq<Entry>, r: Run, i: nat, c: nat, d: nat, key: string)
    requires IsRun(ledger, r) && i < |r.worlds| && c in r.worlds[i].answers && d in r.worlds[i].answers && c != d
    requires Tame(ledger, key) && |ledger| <= INT64_MAX
    ensures c in r.worlds[i].made && d in r.worlds[i].made
    ensures var e, f, a, b := r.worlds[i].made[c], r.worlds[i].made[d], r.worlds[i].answers[c], r.worlds[i].answers[d];
            && a.seen <= |ledger| && b.seen <= |ledger|
            && (IsIncr(e, key) && IsIncr(f, key) ==>
                  && (a.result == b.result <==>
                        && (forall j | a.seen <= j < b.seen :: !IsIncr(ledger[j], key))
                        && (forall j | b.seen <= j < a.seen :: !IsIncr(ledger[j], key)))
                  && (a.result == b.result && e.index < f.index ==> a.seen >= f.index)
                  && (a.seen == e.index && b.seen == f.index ==> a.result != b.result))
  {
    hide NodeOk, IsRun, Tame, CountIncr, ResultAt;
    NumberTold(ledger, r, i, c, key);
    NumberTold(ledger, r, i, d, key);
    CallsApart(ledger, r, i, c, d);
    var a, b := r.worlds[i].answers[c], r.worlds[i].answers[d];
    if a.seen <= b.seen {
      EqualCountsIff(ledger, a.seen, b.seen, key);
    } else {
      EqualCountsIff(ledger, b.seen, a.seen, key);
    }
  }
}

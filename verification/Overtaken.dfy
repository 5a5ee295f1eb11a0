/**
  A run in which two Incr calls of one counter are told the same number. Node 0 leads
  in term 1 and has just taken a committed Incr from its log, with the call that waits
  for it, when node 1 leads in term 2, commits an Incr of its own, answers it, saves a
  snapshot and sends it. Node 0 installs the snapshot before it calls its store.
 */
module Overtaken {
  import opened Wrappers
  import opened RaftTypes
  import opened CompactLog
  import opened StoreSpec
  import opened Counters
  import opened Decimal
  import opened ApplyLoop
  import opened ApplyRuns

  const INCR: Command := Command(Incr, "k", "")

  /** Each term begins with the leader's empty entry. */
  const E1: Entry := Entry(1, 1, Noop)
  const E2: Entry := Entry(1, 2, Normal(INCR))
  const E3: Entry := Entry(2, 3, Noop)
  const E4: Entry := Entry(2, 4, Normal(INCR))
  const LEDGER: seq<Entry> := [E1, E2, E3, E4]

  function Count(n: int): Data {
    map["k" := FormatInt(n)]
  }

  /** The counter after one Incr and after two. */
  lemma Counts()
    ensures Execute(map[], INCR) == (Count(1), Num(1)) && Execute(Count(1), INCR) == (Count(2), Num(2))
    ensures CurrentInt(Count(2), "k") == 2
  {
    hide FormatInt, ParseInt;
    ParseFormat(1);
    ParseFormat(2);
    assert CurrentInt(Count(1), "k") == 1 && CurrentInt(map[], "k") == 0;
    assert Count(1)["k" := FormatInt(2)] == Count(2);
  }

  lemma Folds()
    ensures Fold(LEDGER[..2]) == Count(1) && Fold(LEDGER[..4]) == Count(2)
  {
    hide FormatInt, ParseInt, CurrentInt, Execute, Count;
    Counts();
    FoldNext(LEDGER, 1);
    FoldNext(LEDGER, 2);
    FoldNext(LEDGER, 3);
    FoldNext(LEDGER, 4);
    assert LEDGER[..0] == [];
  }

  // ---- Paths of one node ----

  /** A step that neither sends nor receives, and begins and ends no call. */
  predicate Alone(n: Node, a: Action) {
    && !a.Send? && !a.Receive? && !a.Propose?
    && (a.Finish? ==> n.taken.Some? && n.taken.value.waiter == None)
  }

  /** The steps `acts` of one node lead from `n` to `m`. */
  ghost predicate Leads(n: Node, acts: seq<Action>, m: Node)
    decreases |acts|
  {
    if |acts| == 0 then n == m
    else n.log.Valid() && Enabled(LEDGER, n, acts[0]) && Alone(n, acts[0]) && Leads(Step(n, acts[0]), acts[1..], m)
  }

  lemma LeadsOne(n: Node, a: Action, m: Node)
    requires n.log.Valid() && Enabled(LEDGER, n, a) && Alone(n, a) && Step(n, a) == m
    ensures Leads(n, [a], m)
  {
    hide Step, RLog.Valid, Holds;
    assert [a][1..] == [];
    assert Leads(m, [], m);
  }

  lemma {:induction false} LeadsThen(n: Node, acts: seq<Action>, m: Node, more: seq<Action>, k: Node)
    requires Leads(n, acts, m) && Leads(m, more, k)
    ensures Leads(n, acts + more, k)
    decreases |acts|
  {
    hide Step, RLog.Valid, Alone, Holds;
    if |acts| == 0 {
      assert acts + more == more;
    } else {
      LeadsThen(Step(n, acts[0]), acts[1..], m, more, k);
      assert (acts + more)[1..] == acts[1..] + more;
    }
  }

  // ---- Runs of two nodes ----

  function Two(a: Node, b: Node, sent: set<SnapFile>, made: map<nat, Entry>, answers: map<nat, Answer>): World {
    World(map[0 := a, 1 := b], sent, made, answers)
  }

  /** Some run ends in this world. */
  ghost predicate Reached(w: World) {
    exists r: Run :: IsRun(LEDGER, r) && |r.worlds| > 0 && r.worlds[|r.worlds| - 1] == w
  }

  lemma ReachedNext(w: World, id: int, a: Action, v: World)
    requires Reached(w) && Next(LEDGER, w, id, a, v)
    ensures Reached(v)
  {
    hide Next, Init;
    var r: Run :| IsRun(LEDGER, r) && |r.worlds| > 0 && r.worlds[|r.worlds| - 1] == w;
    var q := Run(r.worlds + [v], r.steps + [(id, a)]);
    forall i | 0 <= i < |q.steps|
      ensures NextAt(LEDGER, q, i)
    {
      if i < |r.steps| {
        assert NextAt(LEDGER, r, i);
      }
    }
    assert IsRun(LEDGER, q) && q.worlds[|q.worlds| - 1] == v;
  }

  lemma ReachedStart()
    ensures Reached(Two(NEWBORN, NEWBORN, {}, map[], map[]))
  {
    var w := Two(NEWBORN, NEWBORN, {}, map[], map[]);
    var r := Run([w], []);
    assert IsRun(LEDGER, r) && r.worlds[|r.worlds| - 1] == w;
  }

  /** Node 0 moves along a path of its own, node 1 stands still. */
  lemma {:induction false} FirstMoves(a: Node, acts: seq<Action>, m: Node, b: Node, sent: set<SnapFile>, made: map<nat, Entry>, answers: map<nat, Answer>)
    requires Leads(a, acts, m) && Reached(Two(a, b, sent, made, answers))
    ensures Reached(Two(m, b, sent, made, answers))
    decreases |acts|
  {
    hide Step, RLog.Valid, Reached, Holds;
    if |acts| > 0 {
      var w, v := Two(a, b, sent, made, answers), Two(Step(a, acts[0]), b, sent, made, answers);
      assert w.nodes[0 := Step(a, acts[0])] == v.nodes;
      ReachedNext(w, 0, acts[0], v);
      FirstMoves(Step(a, acts[0]), acts[1..], m, b, sent, made, answers);
    }
  }

  lemma {:induction false} SecondMoves(b: Node, acts: seq<Action>, m: Node, a: Node, sent: set<SnapFile>, made: map<nat, Entry>, answers: map<nat, Answer>)
    requires Leads(b, acts, m) && Reached(Two(a, b, sent, made, answers))
    ensures Reached(Two(a, m, sent, made, answers))
    decreases |acts|
  {
    hide Step, RLog.Valid, Reached, Holds;
    if |acts| > 0 {
      var w, v := Two(a, b, sent, made, answers), Two(a, Step(b, acts[0]), sent, made, answers);
      assert w.nodes[1 := Step(b, acts[0])] == v.nodes;
      ReachedNext(w, 1, acts[0], v);
      SecondMoves(Step(b, acts[0]), acts[1..], m, a, sent, made, answers);
    }
  }

  // ---- Applying one entry ----

  /** Nothing is in hand and the lock is free. */
  predicate Ready(n: Node) {
    n.busy.Free? && n.taken == None && n.shot.NoShot? && n.log.Valid()
  }

  function Hand(n: Node, e: Entry, waiter: Option<nat>): Node {
    n.(waiters := n.waiters - {n.lastApplied + 1}, taken := Some(Taken(n.lastApplied + 1, e, waiter, None, 0)))
  }

  lemma Takes(n: Node, e: Entry)
    requires Ready(n) && n.lastApplied < n.commit && n.log.At(n.lastApplied + 1) == Some(e)
    ensures var w := if n.lastApplied + 1 in n.waiters then Some(n.waiters[n.lastApplied + 1]) else None;
            Leads(n, [Take], Hand(n, e, w))
  {
    hide RLog.At, RLog.Valid, Leads;
    var w := if n.lastApplied + 1 in n.waiters then Some(n.waiters[n.lastApplied + 1]) else None;
    LeadsOne(n, Take, Hand(n, e, w));
  }

  lemma Applies(n: Node)
    requires n.log.Valid() && n.taken.Some? && n.taken.value.result == None
    ensures Leads(n, [Apply], StepApply(n))
  {
    hide RLog.Valid, Leads, StepApply;
    LeadsOne(n, Apply, StepApply(n));
  }

  lemma Finishes(n: Node)
    requires n.log.Valid() && n.busy.Free? && n.taken.Some? && n.taken.value.result.Some? && n.taken.value.waiter == None
    requires n.taken.value.index > n.lastApplied
    ensures Leads(n, [Finish], n.(taken := None, lastApplied := n.taken.value.index))
  {
    hide RLog.Valid, Leads;
    LeadsOne(n, Finish, n.(taken := None, lastApplied := n.taken.value.index));
  }

  /** The next entry, for which no call waits, is taken, applied and done. */
  lemma Cycles(n: Node, e: Entry)
    requires Ready(n) && n.lastApplied < n.commit && n.log.At(n.lastApplied + 1) == Some(e) && n.lastApplied + 1 !in n.waiters
    requires e.index == n.lastApplied + 1
    ensures Leads(n, [Take] + [Apply] + [Finish],
                  n.(store := ApplyEntry(n.store, e).0, lastApplied := n.lastApplied + 1,
                     wal := if e.payload.Normal? && e.index > n.store.applied then n.wal + [WalRecord(e.index, e.payload.command)] else n.wal))
  {
    hide RLog.At, RLog.Valid, Leads, ApplyEntry;
    var h := Hand(n, e, None);
    assert n.waiters - {n.lastApplied + 1} == n.waiters;
    Takes(n, e);
    Applies(h);
    Finishes(StepApply(h));
    LeadsThen(n, [Take], h, [Apply], StepApply(h));
    LeadsThen(n, [Take] + [Apply], StepApply(h), [Finish], StepApply(h).(taken := None, lastApplied := n.lastApplied + 1));
  }

  // ---- Node 0: it leads, and takes its own Incr ----

  const A1: Node := NEWBORN.(log := RLog(0, 0, [E1]))
  const A2: Node := A1.(log := RLog(0, 0, [E1, E2]), waiters := map[2 := 0])
  const A3: Node := A2.(commit := 2)
  const A4: Node := A3.(lastApplied := 1)
  const A5: Node := Hand(A4, E2, Some(0))

  lemma LeaderLearns()
    ensures Leads(NEWBORN, [Learn(RLog(0, 0, [E1]), 0)], A1)
  {
    hide Leads;
    LeadsOne(NEWBORN, Learn(RLog(0, 0, [E1]), 0), A1);
  }

  lemma LeaderCommits()
    ensures Leads(A2, [Learn(RLog(0, 0, [E1, E2]), 2)], A3)
  {
    hide Leads;
    LeadsOne(A2, Learn(RLog(0, 0, [E1, E2]), 2), A3);
  }

  lemma LeaderApplies() returns (acts: seq<Action>)
    ensures Leads(A3, acts, A5)
  {
    hide Leads;
    Cycles(A3, E1);
    Takes(A4, E2);
    LeadsThen(A3, [Take] + [Apply] + [Finish], A4, [Take], A5);
    acts := [Take] + [Apply] + [Finish] + [Take];
  }

  // ---- Node 1: it leads next, answers its own Incr, and saves a snapshot ----

  const B1: Node := NEWBORN.(log := RLog(0, 0, [E1, E2, E3]))
  const B2: Node := B1.(log := RLog(0, 0, LEDGER), waiters := map[4 := 1])
  const B3: Node := B2.(commit := 4)
  const B4: Node := B3.(lastApplied := 1)
  const B5: Node := B4.(store := Store(Count(1), 2), lastApplied := 2, wal := [WalRecord(2, INCR)])
  const B6: Node := B5.(lastApplied := 3)
  const B7: Node := Hand(B6, E4, Some(1))
  const B8: Node :=
    B7.(store := Store(Count(2), 4), wal := [WalRecord(2, INCR), WalRecord(4, INCR)],
        taken := Some(Taken(4, E4, Some(1), Some(Num(2)), 4)))
  const B9: Node := B8.(taken := None, lastApplied := 4)
  const SNAP: SnapFile := SnapFile(4, 2, Count(2))
  const B10: Node := B9.(snap := SNAP, busy := Saved(4, 2))

  lemma NextLearns()
    ensures Leads(NEWBORN, [Learn(RLog(0, 0, [E1, E2, E3]), 0)], B1)
  {
    hide Leads;
    LeadsOne(NEWBORN, Learn(RLog(0, 0, [E1, E2, E3]), 0), B1);
  }

  lemma NextCommits()
    ensures Leads(B2, [Learn(RLog(0, 0, LEDGER), 4)], B3)
  {
    hide Leads;
    LeadsOne(B2, Learn(RLog(0, 0, LEDGER), 4), B3);
  }

  lemma NextExecutes()
    ensures ApplyEntry(EMPTY, E2).0 == Store(Count(1), 2)
    ensures ApplyEntry(Store(Count(1), 2), E4) == (Store(Count(2), 4), Num(2))
  {
    hide Execute, Count;
    Counts();
  }

  lemma NextApplies() returns (acts: seq<Action>)
    ensures Leads(B3, acts, B8)
  {
    hide Leads, ApplyEntry, Count;
    NextExecutes();
    assert B4.wal + [WalRecord(2, INCR)] == B5.wal && B7.wal + [WalRecord(4, INCR)] == B8.wal;
    Cycles(B3, E1);
    NoopApplied(EMPTY);
    Cycles(B4, E2);
    Cycles(B5, E3);
    NoopApplied(Store(Count(1), 2));
    Takes(B6, E4);
    Applies(B7);
    var one := [Take] + [Apply] + [Finish];
    LeadsThen(B3, one, B4, one, B5);
    LeadsThen(B3, one + one, B5, one, B6);
    LeadsThen(B3, one + one + one, B6, [Take], B7);
    LeadsThen(B3, one + one + one + [Take], B7, [Apply], B8);
    acts := one + one + one + [Take] + [Apply];
  }

  lemma NoopApplied(s: Store)
    ensures ApplyEntry(s, E1).0 == s && ApplyEntry(s, E3).0 == s
  {
  }

  lemma NextSaves() returns (acts: seq<Action>)
    ensures Leads(B9, acts, B10)
  {
    hide Leads, Count;
    var chosen := B9.(shot := Chosen(4, 2));
    var read := B9.(shot := Read(4, 2, Count(2)));
    LeadsOne(B9, Choose(1), chosen);
    LeadsOne(chosen, ReadState, read);
    LeadsOne(read, Save, B10);
    LeadsThen(B9, [Choose(1)], chosen, [ReadState], read);
    LeadsThen(B9, [Choose(1)] + [ReadState], read, [Save], B10);
    acts := [Choose(1)] + [ReadState] + [Save];
  }

  // ---- Node 0 again: the snapshot comes before its call of the store ----

  const A6: Node := A5.(waiters := map[], snap := SNAP, busy := Received(SNAP))
  const A7: Node := A6.(store := Store(Count(2), 4), busy := Restored(SNAP))
  const A8: Node := A7.(taken := Some(Taken(2, E2, Some(0), Some(Num(2)), 4)))
  const A9: Node := A8.(log := RLog(4, 2, []), busy := Shortened(SNAP))
  const A10: Node := A9.(commit := 4, lastApplied := 4, busy := Free)

  lemma OvertakenApplies() returns (acts: seq<Action>)
    ensures Leads(A6, acts, A10)
  {
    hide Leads, Count;
    Skips();
    LeadsOne(A6, Restore, A7);
    Applies(A7);
    LeadsOne(A8, Shorten, A9);
    LeadsOne(A9, Reposition, A10);
    LeadsThen(A6, [Restore], A7, [Apply], A8);
    LeadsThen(A6, [Restore] + [Apply], A8, [Shorten], A9);
    LeadsThen(A6, [Restore] + [Apply] + [Shorten], A9, [Reposition], A10);
    acts := [Restore] + [Apply] + [Shorten] + [Reposition];
  }

  /** The store is past the entry, so it returns the number it holds. */
  lemma Skips()
    ensures StepApply(A7) == A8
  {
    hide FormatInt, ParseInt, CurrentInt, Count;
    Counts();
  }

  // ---- The whole run ----

  /** The answers to the two calls: one number. */
  const TOLD: map<nat, Answer> := map[1 := Answer(Num(2), 4), 0 := Answer(Num(2), 4)]

  const MADE: map<nat, Entry> := map[0 := E2, 1 := E4]

  lemma FirstCallMade()
    ensures Reached(Two(A5, NEWBORN, {}, map[0 := E2], map[]))
  {
    hide Reached, Leads;
    ReachedStart();
    LeaderLearns();
    FirstMoves(NEWBORN, [Learn(RLog(0, 0, [E1]), 0)], A1, NEWBORN, {}, map[], map[]);
    CallMade(A1, E2, 0, A2);
    ReachedNext(Two(A1, NEWBORN, {}, map[], map[]), 0, Propose(E2, 0), Two(A2, NEWBORN, {}, map[0 := E2], map[]));
    LeaderCommits();
    FirstMoves(A2, [Learn(RLog(0, 0, [E1, E2]), 2)], A3, NEWBORN, {}, map[0 := E2], map[]);
    var acts := LeaderApplies();
    FirstMoves(A3, acts, A5, NEWBORN, {}, map[0 := E2], map[]);
  }

  lemma SecondCallMade()
    ensures Reached(Two(A5, B2, {}, MADE, map[]))
  {
    hide Reached, Leads;
    FirstCallMade();
    NextLearns();
    SecondMoves(NEWBORN, [Learn(RLog(0, 0, [E1, E2, E3]), 0)], B1, A5, {}, map[0 := E2], map[]);
    CallMade(B1, E4, 1, B2);
    ReachedNext(Two(A5, B1, {}, map[0 := E2], map[]), 1, Propose(E4, 1), Two(A5, B2, {}, MADE, map[]));
  }

  lemma SecondCallAnswered()
    ensures Reached(Two(A5, B9, {}, MADE, map[1 := Answer(Num(2), 4)]))
  {
    hide Reached, Leads, Count;
    SecondCallMade();
    NextCommits();
    SecondMoves(B2, [Learn(RLog(0, 0, LEDGER), 4)], B3, A5, {}, MADE, map[]);
    var acts := NextApplies();
    SecondMoves(B3, acts, B8, A5, {}, MADE, map[]);
    CallDone(B8, B9);
    ReachedNext(Two(A5, B8, {}, MADE, map[]), 1, Finish, Two(A5, B9, {}, MADE, map[1 := Answer(Num(2), 4)]));
  }

  lemma SnapshotSent()
    ensures Reached(Two(A5, B10, {SNAP}, MADE, map[1 := Answer(Num(2), 4)]))
  {
    hide Reached, Leads, Count;
    SecondCallAnswered();
    var told := map[1 := Answer(Num(2), 4)];
    var acts := NextSaves();
    SecondMoves(B9, acts, B10, A5, {}, MADE, told);
    assert Step(B10, Send) == B10 && Enabled(LEDGER, B10, Send);
    ReachedNext(Two(A5, B10, {}, MADE, told), 1, Send, Two(A5, B10, {SNAP}, MADE, told));
  }

  lemma SnapshotInstalled()
    ensures Reached(Two(A10, B10, {SNAP}, MADE, map[1 := Answer(Num(2), 4)]))
  {
    hide Reached, Leads, Count;
    SnapshotSent();
    var told := map[1 := Answer(Num(2), 4)];
    assert Step(A5, Receive(SNAP)) == A6 && Enabled(LEDGER, A5, Receive(SNAP));
    ReachedNext(Two(A5, B10, {SNAP}, MADE, told), 0, Receive(SNAP), Two(A6, B10, {SNAP}, MADE, told));
    var acts := OvertakenApplies();
    FirstMoves(A6, acts, A10, B10, {SNAP}, MADE, told);
  }

  lemma CallMade(n: Node, e: Entry, call: nat, m: Node)
    requires n.log.Valid() && n.busy.Free? && e.index == n.log.LastIndex() + 1
    requires m == n.(log := n.log.Append(e), waiters := n.waiters[e.index := call])
    ensures Enabled(LEDGER, n, Propose(e, call)) && Step(n, Propose(e, call)) == m
  {
  }

  lemma CallDone(n: Node, m: Node)
    requires n.log.Valid() && n.busy.Free? && n.taken.Some? && n.taken.value.result.Some? && n.taken.value.index > n.lastApplied
    requires m == n.(taken := None, lastApplied := n.taken.value.index)
    ensures Enabled(LEDGER, n, Finish) && Step(n, Finish) == m
  {
  }

  /**
    Two nodes, two calls, two Incr of one counter, both answered with 2. The first of
    them, on its own, returns 1.
   */
  lemma TwoCallsToldOneNumber() returns (r: Run)
    ensures IsRun(LEDGER, r) && |r.worlds| > 0
    ensures var w := r.worlds[|r.worlds| - 1];
            && w.made == MADE && w.answers == TOLD
            && E2 == LEDGER[1] && ResultAt(LEDGER, 2) == Num(1) && ResultAt(LEDGER, 4) == Num(2)
  {
    hide Leads, Count, Reached, ResultAt;
    SnapshotInstalled();
    var n := A10.(taken := None);
    Overtakes(n);
    ReachedNext(Two(A10, B10, {SNAP}, MADE, map[1 := Answer(Num(2), 4)]), 0, Finish, Two(n, B10, {SNAP}, MADE, TOLD));
    r := TheRun(Two(n, B10, {SNAP}, MADE, TOLD));
    OwnNumbers();
  }

  /** The entry was overtaken: the apply index is past it already. */
  lemma Overtakes(n: Node)
    requires n == A10.(taken := None)
    ensures A10.log.Valid() && Enabled(LEDGER, A10, Finish) && Step(A10, Finish) == n
  {
    hide Count;
  }

  lemma TheRun(w: World) returns (r: Run)
    requires Reached(w)
    ensures IsRun(LEDGER, r) && |r.worlds| > 0 && r.worlds[|r.worlds| - 1] == w
  {
    r :| IsRun(LEDGER, r) && |r.worlds| > 0 && r.worlds[|r.worlds| - 1] == w;
  }

  lemma OwnNumbers()
    ensures ResultAt(LEDGER, 2) == Num(1) && ResultAt(LEDGER, 4) == Num(2)
  {
    hide FormatInt, ParseInt, ResultAt, Fold, CurrentInt;
    Folds();
    Counts();
    CountOne();
    OwnNumber(LEDGER, 2, "k");
    OwnNumber(LEDGER, 4, "k");
  }

  lemma CountOne()
    ensures CurrentInt(Count(1), "k") == 1
  {
    hide FormatInt, ParseInt;
    ParseFormat(1);
  }
}
